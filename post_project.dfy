/** The post-a-project form of the web client: its form data and error record,
    the three handlers that edit them, and the validation run on submit. The
    React state setters become functions from the old page state to the new one. */
module PostProject {
  import opened Common

  /** The six inputs of the form. */
  datatype Form = Form(title: string, description: string, budget: string, skills: seq<string>, dueDate: string, category: string)

  /** One message per input; "" means no error is shown. */
  datatype Errors = Errors(title: string, description: string, budget: string, skills: string, dueDate: string, category: string)

  /** What the page keeps in its two state hooks. */
  datatype Page = Page(form: Form, errors: Errors)

  const NoErrors: Errors := Errors("", "", "", "", "", "")

  const TitleRequired: string := "Project title is required"
  const DescriptionRequired: string := "Project description is required"
  const BudgetRequired: string := "Valid budget amount is required"
  const SkillsRequired: string := "At least one skill is required"
  const DueDateRequired: string := "Due date is required"
  const CategoryRequired: string := "Category is required"

  /** The value `Number(text)` takes: NaN, a finite number or an infinity. */
  datatype Num = NaN | Finite(value: real) | Infinity | NegInfinity

  /** What `isNaN(n) || n <= 0` rejects, with JavaScript's comparisons: NaN compares
      false with everything, and negative infinity is below zero. */
  predicate NotPositive(n: Num) {
    match n
    case NaN => true
    case Finite(v) => v <= 0.0
    case Infinity => false
    case NegInfinity => true
  }

  // ----- String.prototype.trim -----

  /** The characters `trim` removes: the white space and line terminators of
      ECMAScript (section 12.2 and 12.3 of ECMA-262). */
  predicate IsSpace(c: char) {
    || c == '\t' || c == '\n' || c == '\U{000B}' || c == '\U{000C}' || c == '\r' || c == ' '
    || c == '\U{00A0}' || c == '\U{1680}' || ('\U{2000}' <= c <= '\U{200A}')
    || c == '\U{2028}' || c == '\U{2029}' || c == '\U{202F}' || c == '\U{205F}'
    || c == '\U{3000}' || c == '\U{FEFF}'
  }

  /** Every character of `s` is white space. */
  ghost predicate Blank(s: string) {
    forall i :: 0 <= i < |s| ==> IsSpace(s[i])
  }

  /** `s` without its leading white space. */
  function TrimStart(s: string): (r: string)
    ensures |r| <= |s| && r == s[|s| - |r|..]
    ensures Blank(s[..|s| - |r|])
    ensures r != [] ==> !IsSpace(r[0])
  {
    if s != [] && IsSpace(s[0]) then TrimStart(s[1..]) else s
  }

  /** `s` without its trailing white space. */
  function TrimEnd(s: string): (r: string)
    ensures r <= s
    ensures Blank(s[|r|..])
    ensures r != [] ==> !IsSpace(r[|r| - 1])
  {
    if s != [] && IsSpace(s[|s| - 1]) then TrimEnd(s[..|s| - 1]) else s
  }

  /** `s.trim()`. */
  function Trim(s: string): string {
    TrimEnd(TrimStart(s))
  }

  /** `!s.trim()` holds exactly for the strings made of white space only. */
  lemma TrimEmptyIffBlank(s: string)
    ensures Trim(s) == "" <==> Blank(s)
  {
    var t := TrimStart(s);
    var dropped := |s| - |t|;
    forall j | 0 <= j < dropped ensures IsSpace(s[j]) {
      assert s[..dropped][j] == s[j];
    }
  }

  // ----- validation -----

  /** The six rules of the form, each on its own. */
  ghost predicate TitleOk(f: Form) { !Blank(f.title) }
  ghost predicate DescriptionOk(f: Form) { !Blank(f.description) }
  predicate BudgetOk(f: Form, toNumber: string -> Num) { f.budget != "" && !NotPositive(toNumber(f.budget)) }
  predicate SkillsOk(f: Form) { |f.skills| > 0 }
  predicate DueDateOk(f: Form) { f.dueDate != "" }
  predicate CategoryOk(f: Form) { f.category != "" }

  ghost predicate FormOk(f: Form, toNumber: string -> Num) {
    TitleOk(f) && DescriptionOk(f) && BudgetOk(f, toNumber) && SkillsOk(f) && DueDateOk(f) && CategoryOk(f)
  }

  /** `validateForm`: every rule is checked, each broken one sets its own message,
      and the form is valid exactly when no message was set. `Number` is the
      parameter `toNumber`. */
  method ValidateForm(form: Form, toNumber: string -> Num) returns (errors: Errors, isValid: bool)
    ensures errors.title == (if TitleOk(form) then "" else TitleRequired)
    ensures errors.description == (if DescriptionOk(form) then "" else DescriptionRequired)
    ensures errors.budget == (if BudgetOk(form, toNumber) then "" else BudgetRequired)
    ensures errors.skills == (if SkillsOk(form) then "" else SkillsRequired)
    ensures errors.dueDate == (if DueDateOk(form) then "" else DueDateRequired)
    ensures errors.category == (if CategoryOk(form) then "" else CategoryRequired)
    ensures isValid <==> errors == NoErrors
    ensures isValid <==> FormOk(form, toNumber)
  {
    isValid := true;
    errors := NoErrors;
    TrimEmptyIffBlank(form.title);
    TrimEmptyIffBlank(form.description);
    if Trim(form.title) == "" {
      errors := errors.(title := TitleRequired);
      isValid := false;
    }
    if Trim(form.description) == "" {
      errors := errors.(description := DescriptionRequired);
      isValid := false;
    }
    if form.budget == "" || NotPositive(toNumber(form.budget)) {
      errors := errors.(budget := BudgetRequired);
      isValid := false;
    }
    if |form.skills| == 0 {
      errors := errors.(skills := SkillsRequired);
      isValid := false;
    }
    if form.dueDate == "" {
      errors := errors.(dueDate := DueDateRequired);
      isValid := false;
    }
    if form.category == "" {
      errors := errors.(category := CategoryRequired);
      isValid := false;
    }
  }

  // ----- the skill toggle -----

  /** The new skill list: a present skill is filtered out, every copy of it; an
      absent one is appended. */
  function ToggleSkill(skills: seq<string>, skill: string): (r: seq<string>)
    ensures skill in skills ==> skill !in r && forall x :: x in r <==> x in skills && x != skill
    ensures skill !in skills ==> r == skills + [skill]
  {
    if skill in skills then Filter(skills, s => s != skill) else skills + [skill]
  }

  /** Toggling never introduces a duplicate into a duplicate-free list. */
  lemma ToggleKeepsDistinct(skills: seq<string>, skill: string)
    requires Distinct(skills)
    ensures Distinct(ToggleSkill(skills, skill))
  {
    if skill in skills {
      FilterKeepsDistinct(skills, s => s != skill);
    }
  }

  /** Toggling twice restores the set of skills; when the skill was absent it
      restores the very list. */
  lemma ToggleTwice(skills: seq<string>, skill: string)
    ensures forall x :: x in ToggleSkill(ToggleSkill(skills, skill), skill) <==> x in skills
    ensures skill !in skills ==> ToggleSkill(ToggleSkill(skills, skill), skill) == skills
  {
    if skill !in skills {
      var p := (s: string) => s != skill;
      FilterSnoc(skills, skill, p);
      FilterKeepsAll(skills, p);
    }
  }

  /** `handleSkillToggle`: only the skill list and the skills error change, and
      that error is cleared. */
  function HandleSkillToggle(p: Page, skill: string): (r: Page)
    ensures r.form.skills == ToggleSkill(p.form.skills, skill)
    ensures r.form.(skills := p.form.skills) == p.form
    ensures r.errors.skills == "" && r.errors.(skills := p.errors.skills) == p.errors
  {
    Page(p.form.(skills := ToggleSkill(p.form.skills, skill)), p.errors.(skills := ""))
  }

  // ----- the text inputs -----

  /** The inputs wired to `handleInputChange`, by their `name` attribute. */
  datatype TextField = Title | Description | Budget | DueDate

  function Text(f: Form, name: TextField): string {
    match name
    case Title => f.title
    case Description => f.description
    case Budget => f.budget
    case DueDate => f.dueDate
  }

  function ErrorOf(e: Errors, name: TextField): string {
    match name
    case Title => e.title
    case Description => e.description
    case Budget => e.budget
    case DueDate => e.dueDate
  }

  /** `handleInputChange`: the edited input takes the new value and its error is
      cleared; every other input, the skills, the category and every other error
      stay as they were. */
  function HandleInputChange(p: Page, name: TextField, value: string): (r: Page)
    ensures Text(r.form, name) == value && ErrorOf(r.errors, name) == ""
    ensures forall other :: other != name ==> Text(r.form, other) == Text(p.form, other) && ErrorOf(r.errors, other) == ErrorOf(p.errors, other)
    ensures r.form.skills == p.form.skills && r.form.category == p.form.category
    ensures r.errors.skills == p.errors.skills && r.errors.category == p.errors.category
  {
    match name
    case Title => Page(p.form.(title := value), p.errors.(title := ""))
    case Description => Page(p.form.(description := value), p.errors.(description := ""))
    case Budget => Page(p.form.(budget := value), p.errors.(budget := ""))
    case DueDate => Page(p.form.(dueDate := value), p.errors.(dueDate := ""))
  }

  /** The category select's `onValueChange`: it sets the category and, unlike the
      other inputs, leaves the category error on screen. */
  function SelectCategory(p: Page, value: string): (r: Page)
    ensures r.form.category == value && r.form.(category := p.form.category) == p.form
    ensures r.errors == p.errors
  {
    Page(p.form.(category := value), p.errors)
  }
}
