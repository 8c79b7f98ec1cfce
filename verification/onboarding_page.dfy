/** The onboarding page: the one-click task toggle, the start-onboarding
    guard, the optional template selection and the checklist icon. */
module OnboardingPage {

  import opened Wrappers
  import OnboardingChecklist

  /** A task's stored status, as the page sees it. */
  type TaskStatus = OnboardingChecklist.TaskStatus

  /** `handleTaskToggle`: a completed task goes back to pending, any other
      task becomes completed. */
  function ToggledStatus(s: TaskStatus): (r: TaskStatus)
    ensures s == OnboardingChecklist.Completed <==> r == OnboardingChecklist.Pending
    ensures s != OnboardingChecklist.Completed <==> r == OnboardingChecklist.Completed
  {
    if s == OnboardingChecklist.Completed then OnboardingChecklist.Pending else OnboardingChecklist.Completed
  }

  /** Two toggles restore a pending or a completed task... */
  lemma ToggleTwiceRestores(s: TaskStatus)
    requires s == OnboardingChecklist.Pending || s == OnboardingChecklist.Completed
    ensures ToggledStatus(ToggledStatus(s)) == s
  {
  }

  /** ...but not one in progress or skipped, which comes back as pending. */
  lemma ToggleTwiceResetsOthers(s: TaskStatus)
    requires s != OnboardingChecklist.Pending && s != OnboardingChecklist.Completed
    ensures ToggledStatus(ToggledStatus(s)) == OnboardingChecklist.Pending
    ensures ToggledStatus(ToggledStatus(s)) != s
  {
  }

  /** The start-onboarding form. An employee id of 0 means none chosen. */
  datatype StartForm = StartForm(
    employeeId: nat,
    templateId: Option<nat>,
    title: string,
    startDate: string,
    targetDate: string)

  const InitialForm := StartForm(0, None, "", "", "")

  /** The button is enabled only with an employee, a title and both dates. */
  function StartDisabled(f: StartForm): (b: bool)
    ensures !b <==> f.employeeId != 0 && f.title != "" && f.startDate != "" && f.targetDate != ""
  {
    f.employeeId == 0 || f.title == "" || f.startDate == "" || f.targetDate == ""
  }

  lemma InitialFormDisabled()
    ensures StartDisabled(InitialForm)
  {
  }

  /** The template select's value: the empty "None" option, or a template id. */
  datatype TemplateChoice = NoTemplate | Template(id: nat)

  /** `e.target.value as number || undefined`: the empty option (and id 0,
      which is falsy) is stored as no template. */
  function ChooseTemplate(f: StartForm, choice: TemplateChoice): (r: StartForm)
    ensures r.templateId.None? <==> choice.NoTemplate? || choice.id == 0
    ensures r.templateId.Some? ==> choice == Template(r.templateId.value)
    ensures r.(templateId := f.templateId) == f
  {
    match choice
    case NoTemplate => f.(templateId := None)
    case Template(id) => f.(templateId := if id == 0 then None else Some(id))
  }

  /** The choice the select shows for a stored template: `template_id || ''`. */
  function ShownChoice(templateId: Option<nat>): TemplateChoice {
    if templateId.Some? && templateId.value != 0 then Template(templateId.value) else NoTemplate
  }

  /** Choosing what the select shows stores it back unchanged. */
  lemma ChoiceRoundTrip(f: StartForm, id: nat)
    requires id != 0
    ensures ShownChoice(ChooseTemplate(f, Template(id)).templateId) == Template(id)
    ensures ChooseTemplate(f, ShownChoice(Some(id))).templateId == Some(id)
  {
  }

  /** The icon beside a checklist. */
  datatype Icon = CheckCircle | WarningIcon | Schedule

  /** `getStatusIcon`: completed and overdue have their own icons, every other
      status the clock. */
  function StatusIcon(status: string): (i: Icon)
    ensures i == CheckCircle <==> status == "completed"
    ensures i == WarningIcon <==> status == "overdue"
    ensures i == Schedule <==> status != "completed" && status != "overdue"
  {
    if status == "completed" then CheckCircle
    else if status == "overdue" then WarningIcon
    else Schedule
  }
}
