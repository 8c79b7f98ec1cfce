# HRM core rules in Dafny

A functional model of the rules in a human-resources management system. The
system has a Laravel backend and a React frontend. The model covers:

- **Onboarding progress.** The backend's one visible business rule: the
  progress percentage and status of an onboarding checklist.
- **Declared data invariants.** The payroll, attendance and recruitment tables
  declare unique keys, enum defaults, NOT NULL columns, and cascade, set-null
  and restrict deletes. The model also covers the two-decimal money casts and
  the allowance total of a salary structure.
- **Frontend decision rules.** These are the pure rules the pages and layout
  components apply:
  - role and permission gates, and the sidebar's role filter;
  - breadcrumbs, and drag-and-drop reordering;
  - selection toggles in the role dialogs;
  - theme and language persistence;
  - the clock-in/clock-out state machine;
  - the payroll totals fallback;
  - audit-log subject names;
  - performance labels and colours;
  - the onboarding task toggle;
  - search and notification routing;
  - leave approval;
  - employee list counts;
  - the recruitment pipeline board;
  - settings change detection;
  - password reset.

Units and representations:

| quantity | model |
|---|---|
| money | integer cents (`Numeric.Cents`) |
| hours | hundredths (`Numeric.Hundredths`) |
| calendar days | `nat` |
| strings | `seq<char>` |

Each database table is a `Tables.Table`: rows by auto-increment id. An
INSERT payload gives `Option` for each column, and `None` means the column
was left out. A refused write is a `Failure` carrying a `Tables.DbError`.
`Database` puts the four tables together with the ids of their parent
tables (users, employees, job postings, candidates, shifts).

The frontend modules model page state as immutable records. Event handlers
become functions from old state to new state. Server answers, confirmations
and the URL encoder are parameters. A request the handler sends appears as
an `Option` in the result. Two modules serve several pages:

- `Notifications` holds the routing and text rules that the top bar and the
  notifications page share.
- `Pagination` holds the list query and page count that both list pages use.

## Model

| member | source | states |
|---|---|---|
| OnboardingChecklist.UpdateProgress | backend/app/Models/OnboardingChecklist.php:51-59 | With no required tasks, progress is 0 and the status is not started. Otherwise progress is completed×100/total rounded half up, and lies in 0..100. The status is completed iff progress ≥ 100, in progress iff 0 < progress < 100, not started iff progress = 0, and never overdue. |
| Numeric.RoundedPercent | backend/app/Models/OnboardingChecklist.php:56 | `round(part / whole * 100)` with ties upward: the result r is the integer within half a unit of 100·part/whole. |
| Numeric.RoundedPercentRange | backend/app/Models/OnboardingChecklist.php:56 | The rounded percentage is never negative, and it is at most 100 when the part does not exceed the whole. |
| Numeric.RoundedPercentMonotone | backend/app/Models/OnboardingChecklist.php:56 | A larger part never gives a smaller rounded percentage. |
| Numeric.RoundedPercentEnds | backend/app/Models/OnboardingChecklist.php:56 | The whole is exactly 100 and nothing is exactly 0. |
| OnboardingChecklist.CompletedWithinRequired | backend/app/Models/OnboardingChecklist.php:53-54 | The completed required count never exceeds the required count. It equals it exactly when every required task is completed. |
| OnboardingChecklist.StatusFromPercent | backend/app/Models/OnboardingChecklist.php:57 | Maps a percentage to completed, in progress or not started, by the three ranges. It never gives overdue. |
| OnboardingChecklist.OnlyRequiredTasksCount | backend/app/Models/OnboardingChecklist.php:53-54 | Progress and status equal those of the required tasks alone. |
| OnboardingChecklist.SameRequiredTasksSameProgress | backend/app/Models/OnboardingChecklist.php:53-54 | Two checklists with the same required tasks get the same progress and status, whatever their optional tasks. |
| OnboardingChecklist.CompletingTaskNeverLowersProgress | backend/app/Models/OnboardingChecklist.php:56 | Marking any task completed never lowers the percentage. |
| OnboardingChecklist.CompletedWithPendingRequiredTask | backend/app/Models/OnboardingChecklist.php:56-57 | 199 of 200 required tasks done rounds to 100. The rule as written then reports completed while a required task is pending. |
| OnboardingChecklist.NotStartedWithCompletedTask | backend/app/Models/OnboardingChecklist.php:56-57 | 1 of 201 required tasks done rounds to 0. The rule as written then reports not started although a required task is completed. |
| OnboardingChecklist.NearlyDoneChecklist | backend/app/Models/OnboardingChecklist.php:53-54 | A checklist of 200 required tasks of which exactly 199 are completed and the last is pending. |
| OnboardingChecklist.BarelyStartedChecklist | backend/app/Models/OnboardingChecklist.php:53-54 | A checklist of 201 required tasks of which exactly one, the first, is completed. |
| OnboardingChecklist.UpdateProgressByCount | backend/app/Models/OnboardingChecklist.php:53-57 | Keeps the same percentage, but reads the status off the counts. It is completed iff there are required tasks and all are completed, in progress iff some but not all are, and not started iff none are. |
| SalaryStructure.RoundHalfUp | backend/app/Models/SalaryStructure.php:39-44 | Divides to the nearest integer, with ties away from zero, for both signs. |
| SalaryStructure.CastDecimal2 | backend/app/Models/SalaryStructure.php:39-44 | The `decimal:2` cast: a value with at most two decimals is kept exactly. A longer one is rounded half up to cents. |
| SalaryStructure.CastIdempotent | backend/app/Models/SalaryStructure.php:39-44 | Casting a value that is already in cents changes nothing. |
| SalaryStructure.CastWithinHalfCent | backend/app/Models/SalaryStructure.php:39-44 | A cast value is within half a cent of the input. |
| SalaryStructure.FromInput | backend/app/Models/SalaryStructure.php:22-44 | Reading a row copies the non-money columns and casts all six money columns. Each money column keeps its value when given in cents. |
| SalaryStructure.TotalAllowances | backend/app/Models/SalaryStructure.php:53-56 | The total is housing + transport + other allowances. With non-negative components it is ≥ each of them and ≥ 0. |
| SalaryStructure.TotalAllowancesIgnoresOtherColumns | backend/app/Models/SalaryStructure.php:53-56 | The total does not depend on basic salary, tax rate or social insurance. |
| SalaryStructure.TotalAllowancesExact | backend/app/Models/SalaryStructure.php:55 | Raising one allowance by some cents raises the total by exactly that amount. |
| Tables.Add | backend/database/migrations/2026_01_14_154927_create_payroll_records_table.php:11 | A new row gets a fresh auto-increment id. Other rows are untouched. |
| Tables.Insert | backend/database/migrations/2026_01_14_154927_create_payroll_records_table.php:41 | An insert is refused with a duplicate-key error exactly when a row with the same unique key exists. Otherwise the row is added, and the key stays unique. |
| Tables.AtMostOneRowPerKey | backend/database/migrations/2026_01_14_115531_create_attendances_table.php:31 | In a valid table at most one row carries a given unique key. |
| Tables.Remove | backend/database/migrations/2026_01_14_154926_create_payroll_periods_table.php:11 | Deleting a row by id removes exactly that id, keeps every other row unchanged, and never rewinds the counter. |
| Tables.DeleteWhere | backend/database/migrations/2026_01_14_154927_create_payroll_records_table.php:12-13 | A cascade removes exactly the selected rows and keeps the others unchanged under the same ids. |
| Tables.DeleteWherePreservesValid | backend/database/migrations/2026_01_14_154927_create_payroll_records_table.php:12-13 | Deleting rows keeps ids and unique keys valid. |
| Tables.UpdateAll | backend/database/migrations/2026_01_14_154926_create_payroll_periods_table.php:20 | A set-null update keeps every row under its id and removes none. |
| Tables.UpdateAllPreservesValid | backend/database/migrations/2026_01_14_161732_create_job_applications_table.php:36 | A rewrite that keeps keys keeps them unique. |
| PayrollRecords.ParseRecordStatus | backend/database/migrations/2026_01_14_154927_create_payroll_records_table.php:36 | Only draft, approved and paid are accepted. An accepted status reads back as its own text. |
| PayrollRecords.RecordStatusRoundTrip | backend/database/migrations/2026_01_14_154927_create_payroll_records_table.php:36 | Every status is stored under a name that parses back to it. |
| PayrollRecords.MissingColumns | backend/database/migrations/2026_01_14_154927_create_payroll_records_table.php:12-29 | Nothing is missing iff employee, period, basic, gross, total deductions and net are all given. |
| PayrollRecords.NewRow | backend/database/migrations/2026_01_14_154927_create_payroll_records_table.php:12-37 | The insert is refused iff a required column is missing (the first one is named) or the status is not an enum value. Otherwise the six amounts are copied, omitted earnings, deductions, days and overtime are 0, and an omitted status is draft. |
| PayrollRecords.FreshRecordIsZeroDraft | backend/database/migrations/2026_01_14_154927_create_payroll_records_table.php:17-36 | A record with only its required columns is a draft with every optional amount, day count and overtime at 0. |
| PayrollRecords.SummaryAmountsRequired | backend/database/migrations/2026_01_14_154927_create_payroll_records_table.php:16-29 | Leaving out basic, gross, total deductions or net always refuses the insert. |
| PayrollPeriods.ParsePeriodStatus | backend/database/migrations/2026_01_14_154926_create_payroll_periods_table.php:15 | Only the five listed statuses are accepted, and each reads back as its own text. |
| PayrollPeriods.PeriodStatusRoundTrip | backend/database/migrations/2026_01_14_154926_create_payroll_periods_table.php:15 | Every status round-trips through its stored name. |
| PayrollPeriods.MissingColumns | backend/database/migrations/2026_01_14_154926_create_payroll_periods_table.php:12-16 | Nothing is missing iff name, start date, end date and working days are given. |
| PayrollPeriods.NewRow | backend/database/migrations/2026_01_14_154926_create_payroll_periods_table.php:12-21 | The insert is refused iff a required column is missing or the status is invalid. Otherwise the status defaults to draft, the three totals to 0, and approval stays as given. |
| PayrollPeriods.FreshPeriodIsUnapprovedDraft | backend/database/migrations/2026_01_14_154926_create_payroll_periods_table.php:15-21 | A period with only its required columns is a draft with zero totals and no approver or approval time. |
| PayrollPeriods.WorkingDaysRequired | backend/database/migrations/2026_01_14_154926_create_payroll_periods_table.php:16 | Without working days the insert is refused, whatever else is given. |
| PayrollPeriods.ForgetApprover | backend/database/migrations/2026_01_14_154926_create_payroll_periods_table.php:20 | Deleting the approving user nulls approved_by and leaves every other column as it was. |
| Attendances.ParseAttendanceStatus | backend/database/migrations/2026_01_14_115531_create_attendances_table.php:23 | Only the five listed statuses are accepted, and each reads back as its own text. |
| Attendances.AttendanceStatusRoundTrip | backend/database/migrations/2026_01_14_115531_create_attendances_table.php:23 | Every status round-trips through its stored name. |
| Attendances.MissingColumns | backend/database/migrations/2026_01_14_115531_create_attendances_table.php:12-13 | Nothing is missing iff employee and record date are given. |
| Attendances.NewRow | backend/database/migrations/2026_01_14_115531_create_attendances_table.php:12-28 | The insert is refused iff the employee or date is missing or the status is invalid. Otherwise the status defaults to present, overtime and late minutes to 0, and the nullable columns are copied. |
| Attendances.DayOnlyRowIsPresent | backend/database/migrations/2026_01_14_115531_create_attendances_table.php:15-16 | A row with neither clock time can exist. It is present, with no overtime and no lateness. |
| JobApplications.ParseStage | backend/database/migrations/2026_01_14_161732_create_job_applications_table.php:16-26 | Exactly the nine listed stages are accepted, and each reads back as its own text. |
| JobApplications.StageRoundTrip | backend/database/migrations/2026_01_14_161732_create_job_applications_table.php:16-26 | Every stage round-trips through its stored name. |
| JobApplications.ParseApplicationStatus | backend/database/migrations/2026_01_14_161732_create_job_applications_table.php:28 | Only active, on_hold and closed are accepted. |
| JobApplications.ApplicationStatusRoundTrip | backend/database/migrations/2026_01_14_161732_create_job_applications_table.php:28 | Every status round-trips through its stored name. |
| JobApplications.MissingColumns | backend/database/migrations/2026_01_14_161732_create_job_applications_table.php:12-38 | Nothing is missing iff posting, candidate and applied date are given. |
| JobApplications.NewRow | backend/database/migrations/2026_01_14_161732_create_job_applications_table.php:12-39 | The insert is refused iff a required column is missing or the stage or status text is invalid. Otherwise an omitted stage is applied, an omitted status is active, and the nullable columns are copied. |
| JobApplications.FreshApplicationIsActiveAtApplied | backend/database/migrations/2026_01_14_161732_create_job_applications_table.php:26-28 | An application with only its required columns is active, at the applied stage, and not evaluated. |
| JobApplications.ForgetEvaluator | backend/database/migrations/2026_01_14_161732_create_job_applications_table.php:36 | Deleting the evaluator nulls evaluated_by and keeps the rest of the application. |
| Database.Fresh | backend/database/migrations/2026_01_14_154927_create_payroll_records_table.php:10-41 | A database with parents and empty tables satisfies every key and foreign key. |
| Database.InsertPeriod | backend/database/migrations/2026_01_14_154926_create_payroll_periods_table.php:12-21 | Refused iff the row is invalid or the approver is not an existing user. Otherwise only the periods table gains the row, and consistency is kept. |
| Database.InsertRecord | backend/database/migrations/2026_01_14_154927_create_payroll_records_table.php:12-41 | Refused iff the row is invalid, the employee or period does not exist, or the (employee, period) pair is taken. Otherwise only the records table gains the row, and consistency is kept. |
| Database.InsertAttendance | backend/database/migrations/2026_01_14_115531_create_attendances_table.php:12-31 | Refused iff the row is invalid, the employee or given shift does not exist, or the (employee, day) pair is taken. Otherwise only the attendance table changes, and consistency is kept. |
| Database.InsertApplication | backend/database/migrations/2026_01_14_161732_create_job_applications_table.php:12-43 | Refused iff the row is invalid, posting, candidate or evaluator does not exist, or the (posting, candidate) pair is taken. Otherwise only the applications table changes, and consistency is kept. |
| Database.DeleteEmployee | backend/database/migrations/2026_01_14_154927_create_payroll_records_table.php:12 | Removes exactly that employee's payroll records and attendance rows. Nothing else changes, and consistency is kept. |
| Database.DeletePeriod | backend/database/migrations/2026_01_14_154927_create_payroll_records_table.php:13 | Removes the period and exactly its payroll records. Nothing else changes, and consistency is kept. |
| Database.DeletePosting | backend/database/migrations/2026_01_14_161732_create_job_applications_table.php:12 | Removes exactly the posting's applications. Nothing else changes. |
| Database.DeleteCandidate | backend/database/migrations/2026_01_14_161732_create_job_applications_table.php:13 | Removes exactly the candidate's applications. Nothing else changes. |
| Database.DeleteUser | backend/database/migrations/2026_01_14_154926_create_payroll_periods_table.php:20 | Keeps every period and application, nulls the approver and evaluator references to the user, and keeps consistency. |
| Database.DeleteShift | backend/database/migrations/2026_01_14_115531_create_attendances_table.php:21 | Refused with a foreign-key error iff an attendance row names the shift. Otherwise only the shift goes. |
| Database.OneRowPerKey | backend/database/migrations/2026_01_14_154927_create_payroll_records_table.php:41 | In a consistent database each unique pair of the three keyed tables has at most one row. |
| Database.DuplicateRecordRefused | backend/database/migrations/2026_01_14_154927_create_payroll_records_table.php:41 | Once a record exists for an (employee, period) pair, a second insert for the same pair is refused as a duplicate. |
| PermissionGate.HasRole | frontend/src/components/auth/PermissionGate.tsx:24 | Passes iff the required roles are empty or the user holds one of them. |
| PermissionGate.HasPermission | frontend/src/components/auth/PermissionGate.tsx:27-31 | Passes iff the permissions are empty, or the user holds all of them (requireAll) or any of them (otherwise). |
| PermissionGate.Renders | frontend/src/components/auth/PermissionGate.tsx:19-37 | Without a user nothing renders. With one, content renders iff both checks pass. |
| PermissionGate.DefaultsAdmitEveryUser | frontend/src/components/auth/PermissionGate.tsx:13-15 | With the default empty lists every logged-in user sees the content. |
| PermissionGate.RendersMonotone | frontend/src/components/auth/PermissionGate.tsx:24-31 | Giving the user more roles or permissions never hides content that was shown. |
| PermissionGate.RequireAllIsStricter | frontend/src/components/auth/PermissionGate.tsx:29-31 | For non-empty permissions, passing with requireAll implies passing without it. |
| Sidebar.Shown | frontend/src/components/layout/Sidebar.tsx:134-139 | Items without roles always show. Restricted items are hidden without a user, and otherwise show iff the roles intersect. |
| Sidebar.VisibleItems | frontend/src/components/layout/Sidebar.tsx:134-139 | The visible list is an order-preserving subsequence holding exactly the shown items. |
| Sidebar.UnrestrictedAlwaysVisible | frontend/src/components/layout/Sidebar.tsx:135 | An item with no roles list is visible to anyone, signed in or not. |
| Sidebar.AdminSeesNoSelfService | frontend/src/components/layout/Sidebar.tsx:62-64 | A user whose only role is admin sees none of the three self-service links. |
| Sidebar.IsActive | frontend/src/components/layout/Sidebar.tsx:140 | An item is highlighted iff the pathname is exactly its path. |
| Sidebar.MenuPathsDistinct | frontend/src/components/layout/Sidebar.tsx:44-65 | No two menu items share a path. |
| Sidebar.AtMostOneActive | frontend/src/components/layout/Sidebar.tsx:140 | For any pathname at most one visible item is active. |
| Breadcrumbs.Segments | frontend/src/components/common/Breadcrumbs.tsx:14 | The segments are exactly the non-empty pieces of the path split at `/`: each is non-empty and slash-free, every non-empty piece is kept, and they keep their order and multiplicity. |
| Breadcrumbs.LabelOf | frontend/src/components/common/Breadcrumbs.tsx:58-59 | The label with the name map read by its own keys only. Numeric segments get the view label, mapped segments their translation key, and anything else is verbatim. The label always renders. |
| Breadcrumbs.LabelAsWritten | frontend/src/components/common/Breadcrumbs.tsx:58-59 | The label as the page computes it. The map read also finds the members inherited from `Object.prototype`. An inherited method name gives a function child, which renders nothing, and `__proto__` gives the prototype object. Every other segment gets the own-key label. The label renders iff the segment is not an inherited name. |
| Breadcrumbs.ProtoPathSegments | frontend/src/components/common/Breadcrumbs.tsx:14 | `/employees/__proto__` splits into `employees` and `__proto__`. |
| Breadcrumbs.ProtoSegmentCrashes | frontend/src/components/common/Breadcrumbs.tsx:59-64 | For the segment `__proto__` the page's label is the prototype object, which React cannot render, while the own-key lookup shows the segment itself. |
| Breadcrumbs.CrumbsRender | frontend/src/components/common/Breadcrumbs.tsx:53-76 | With the own-key lookup, every crumb of every trail renders. |
| Breadcrumbs.CrumbsFor | frontend/src/components/common/Breadcrumbs.tsx:42-76 | The home crumb, then one crumb per segment linking to the path up to it, with its label; only the last segment's crumb is plain text. |
| Breadcrumbs.Trail | frontend/src/components/common/Breadcrumbs.tsx:32-76 | There is no trail iff the path is the root or exactly /dashboard. Otherwise there is a home crumb plus one per segment. Crumb i links to the first i segments, and only the last is plain text. |
| Breadcrumbs.RootHidden | frontend/src/components/common/Breadcrumbs.tsx:32-34 | The root path shows no breadcrumbs. |
| Breadcrumbs.DashboardHidden | frontend/src/components/common/Breadcrumbs.tsx:32-34 | Exactly /dashboard shows no breadcrumbs. |
| Breadcrumbs.DashboardChildShown | frontend/src/components/common/Breadcrumbs.tsx:32-34 | /dashboard/x does show them. |
| Breadcrumbs.LinksExtendOneSegment | frontend/src/components/common/Breadcrumbs.tsx:55 | Each crumb's link is the previous link plus one segment, so each is a prefix of the next. |
| Breadcrumbs.SegmentsOfPath | frontend/src/components/common/Breadcrumbs.tsx:14 | Joining non-empty, slash-free segments into a path and splitting it again gives them back. |
| DashboardPage.InsertPosition | frontend/src/pages/dashboard/DashboardPage.tsx:93 | Where `splice` inserts: the destination when it is within the list, else the end. |
| DashboardPage.Reorder | frontend/src/pages/dashboard/DashboardPage.tsx:91-93 | Keeps length and multiset (a permutation). The moved item lands at the clamped destination, and removing it leaves the others in their old order. |
| DashboardPage.ReorderInPlace | frontend/src/pages/dashboard/DashboardPage.tsx:92-93 | Moving an item onto its own index changes nothing. |
| DashboardPage.OnDragEnd | frontend/src/pages/dashboard/DashboardPage.tsx:88-102 | A drop without destination changes nothing. Otherwise only the dragged zone's order changes, by Reorder. |
| DashboardPage.DropKeepsWidgets | frontend/src/pages/dashboard/DashboardPage.tsx:88-102 | After any drop both zones hold the same widgets as before. |
| RoleManagementPage.OpenDialog | frontend/src/pages/admin/RoleManagementPage.tsx:66-77 | Opening for a role preloads its name and permission names. Opening for a new role starts empty. |
| RoleManagementPage.CloseDialog | frontend/src/pages/admin/RoleManagementPage.tsx:79-84 | Closing clears the editing role, the name and the selection. |
| RoleManagementPage.TogglePermission | frontend/src/pages/admin/RoleManagementPage.tsx:117-123 | Flips the toggled permission's membership only, as Selection.Toggle. |
| RoleManagementPage.SaveRequestOf | frontend/src/pages/admin/RoleManagementPage.tsx:88-98 | Save updates the edited role and creates a role otherwise, with the typed name and ticked permissions. |
| RoleManagementPage.AfterSave | frontend/src/pages/admin/RoleManagementPage.tsx:86-104 | A successful save closes the dialog. A failed one leaves it as it was. |
| RoleManagementPage.SaveUneditedRole | frontend/src/pages/admin/RoleManagementPage.tsx:66-98 | Opening a role and saving at once sends its own name and permissions back. |
| RoleManagementPage.TickUntickUnchanged | frontend/src/pages/admin/RoleManagementPage.tsx:119-121 | Ticking an unticked permission and unticking it again sends the same save request as before. |
| RoleManagementPage.TogglePermissionNoDuplicates | frontend/src/pages/admin/RoleManagementPage.tsx:119-121 | Toggling keeps the selection free of duplicates. |
| Selection.Toggle | frontend/src/pages/admin/RoleManagementPage.tsx:119-121 | A present name is removed everywhere and nothing else is: the result is a subsequence shorter by the name's occurrences. An absent name is appended after the unchanged selection. Only that name's membership flips. |
| Selection.ToggleKeepsNoDuplicates | frontend/src/pages/admin/RoleManagementPage.tsx:119-121 | A duplicate-free selection stays duplicate-free. |
| Selection.ToggleTwiceAbsent | frontend/src/pages/admin/RoleManagementPage.tsx:119-121 | Toggling an absent name twice restores the exact list. |
| Selection.ToggleTwicePresent | frontend/src/pages/admin/RoleManagementPage.tsx:119-121 | Toggling a present name twice keeps it selected, but moves it to the end. |
| UserRoleManagementPage.PageCount | frontend/src/pages/admin/UserRoleManagementPage.tsx:193 | The page count is the least number of 10-row pages holding all users. |
| UserRoleManagementPage.EveryUserReachable | frontend/src/pages/admin/UserRoleManagementPage.tsx:54 | Every user lies on a page that the control offers. |
| UserRoleManagementPage.QueryOf | frontend/src/pages/admin/UserRoleManagementPage.tsx:52-56 | The request asks for 10 per page and omits an empty search. |
| UserRoleManagementPage.OpenDialog | frontend/src/pages/admin/UserRoleManagementPage.tsx:75-79 | Opening preloads exactly the user's role names. |
| UserRoleManagementPage.CloseDialog | frontend/src/pages/admin/UserRoleManagementPage.tsx:81-85 | Closing clears the user and the selection. |
| UserRoleManagementPage.ToggleRole | frontend/src/pages/admin/UserRoleManagementPage.tsx:99-105 | Flips the toggled role's membership only. |
| UserRoleManagementPage.SaveRequestOf | frontend/src/pages/admin/UserRoleManagementPage.tsx:87-97 | Save sends nothing iff no user is being edited. Otherwise it sends that user's id and the ticked roles. |
| UserRoleManagementPage.SaveAfterCloseIsNoOp | frontend/src/pages/admin/UserRoleManagementPage.tsx:88 | After closing the dialog, save does nothing. |
| UserRoleManagementPage.SaveUneditedUser | frontend/src/pages/admin/UserRoleManagementPage.tsx:75-97 | Opening and saving at once sends the user's own roles. |
| UserRoleManagementPage.TickUntickUnchanged | frontend/src/pages/admin/UserRoleManagementPage.tsx:101-103 | Ticking and unticking an absent role restores the exact list. |
| UserRoleManagementPage.ToggleRoleNoDuplicates | frontend/src/pages/admin/UserRoleManagementPage.tsx:101-103 | Toggling keeps the roles free of duplicates. |
| Pagination.Query | frontend/src/pages/employees/EmployeeListPage.tsx:56-60 | The list request carries page and page size, and sends the search only when it is non-empty. |
| Pagination.PageCount | frontend/src/pages/employees/EmployeeListPage.tsx:266 | ceil(total/perPage): enough pages for every item, and no spare page. |
| Pagination.PageOf | frontend/src/pages/employees/EmployeeListPage.tsx:266 | Item i (from 0) sits on the 1-based page p with (p−1)·perPage ≤ i < p·perPage. |
| Pagination.NoItemsNoPages | frontend/src/pages/employees/EmployeeListPage.tsx:266 | An empty list offers no pages. |
| Pagination.PageCountExact | frontend/src/pages/employees/EmployeeListPage.tsx:266 | Every item's page is within the count, and a non-empty list has at least one page. |
| ThemeContext.StoredMode | frontend/src/contexts/ThemeContext.tsx:80-86 | A stored light, dark or auto is taken. Anything else, or nothing, gives auto. |
| ThemeContext.StoredLanguage | frontend/src/contexts/ThemeContext.tsx:88-90 | The stored language if it is non-empty, else en. |
| ThemeContext.Resolve | frontend/src/contexts/ThemeContext.tsx:93-98 | Never auto. Light and dark resolve to themselves. Auto is dark iff the system prefers dark. |
| ThemeContext.DirectionOf | frontend/src/contexts/ThemeContext.tsx:100 | Right-to-left iff the language is exactly ar. |
| ThemeContext.Init | frontend/src/contexts/ThemeContext.tsx:80-100 | Start-up state reads mode and language from storage, and sets the document direction from the language. |
| ThemeContext.SetThemeMode | frontend/src/contexts/ThemeContext.tsx:102-105 | Sets the mode and leaves the language, the direction and the other stored keys unchanged. |
| ThemeContext.SetLanguage | frontend/src/contexts/ThemeContext.tsx:107-113 | Sets language, document language and direction by DirectionOf, and keeps the mode and other keys. |
| ThemeContext.ModeSurvivesReload | frontend/src/contexts/ThemeContext.tsx:102-105 | A mode that is set comes back after a reload. |
| ThemeContext.LanguageSurvivesReload | frontend/src/contexts/ThemeContext.tsx:107-113 | A non-empty language that is set comes back after a reload. An empty one comes back as en. |
| ThemeContext.SettingsIndependent | frontend/src/contexts/ThemeContext.tsx:102-113 | Setting the mode never changes the reloaded language, and vice versa. |
| AttendancePage.LocalDayOf | frontend/src/pages/attendance/AttendancePage.tsx:65 | A date parsed as midnight UTC names the same local day east of UTC (and at UTC) and the previous day west of it. |
| AttendancePage.TodayRecord | frontend/src/pages/attendance/AttendancePage.tsx:64-66 | The first record whose date, parsed as UTC and read in the browser's time zone, is the local today. It is none iff no record reads as today. |
| AttendancePage.RecordOn | frontend/src/pages/attendance/AttendancePage.tsx:64-66 | Corrected lookup: the first record whose calendar date is today, compared as dates. It is none iff no record has today's date. |
| AttendancePage.AsWrittenMatchesEastOfUtc | frontend/src/pages/attendance/AttendancePage.tsx:64-66 | East of UTC, and at UTC, the page's lookup agrees with the date comparison for every record list. |
| AttendancePage.AsWrittenLooksOneDayAheadWestOfUtc | frontend/src/pages/attendance/AttendancePage.tsx:64-66 | West of UTC the page's lookup returns the record dated tomorrow, never today's. |
| AttendancePage.ClockedInToday | frontend/src/pages/attendance/AttendancePage.tsx:68 | One record for day 20000 that is clocked in and not out. |
| AttendancePage.ClockInOfferedAgainWestOfUtc | frontend/src/pages/attendance/AttendancePage.tsx:64-80 | Five hours west of UTC, an employee already clocked in today is offered clock in again. The date comparison offers clock out. |
| AttendancePage.IsClockedIn | frontend/src/pages/attendance/AttendancePage.tsx:68 | Clocked in iff today's record has a clock-in time and no clock-out time. |
| AttendancePage.IsClockedOut | frontend/src/pages/attendance/AttendancePage.tsx:69 | Clocked out iff today's record has a clock-out time. |
| AttendancePage.ClockStatesExclusive | frontend/src/pages/attendance/AttendancePage.tsx:68-69 | Never both clocked in and clocked out. |
| AttendancePage.ClockAction | frontend/src/pages/attendance/AttendancePage.tsx:71-91 | Clock in when in neither state, clock out when clocked in, and no call when clocked out. |
| AttendancePage.ButtonDisabled | frontend/src/pages/attendance/AttendancePage.tsx:153 | Disabled iff clocked out or loading. |
| AttendancePage.ButtonLabelOf | frontend/src/pages/attendance/AttendancePage.tsx:166-168 | A spinner iff loading. Otherwise shift completed, clock out or clock in, by state. |
| AttendancePage.LabelMatchesAction | frontend/src/pages/attendance/AttendancePage.tsx:74-80 | The label always announces the action that a click performs. |
| AttendancePage.NoRecordMeansClockIn | frontend/src/pages/attendance/AttendancePage.tsx:64-80 | Under the corrected date lookup, with no record dated today the action is clock in. |
| AttendancePage.NothingShownAsTodayMeansClockIn | frontend/src/pages/attendance/AttendancePage.tsx:64-80 | Under the page's own lookup, with no record that reads as today in the browser's time zone, the action is clock in. |
| AttendancePage.StatusChipColour | frontend/src/pages/attendance/AttendancePage.tsx:102-110 | The chip colour is chosen by the lower-cased status, with default for unknown values. |
| PayrollPage.SumsBalance | frontend/src/pages/payroll/PayrollPage.tsx:128-130 | If every record has net = gross − deductions, so do the sums. |
| PayrollPage.CurrentPeriod | frontend/src/pages/payroll/PayrollPage.tsx:127 | The period with the selected id, or none iff no period has it. |
| PayrollPage.OrSum | frontend/src/pages/payroll/PayrollPage.tsx:128 | A stored non-zero total is shown. A missing or zero one falls back to the sum. |
| PayrollPage.Shown | frontend/src/pages/payroll/PayrollPage.tsx:127-130 | Gross, deductions and net each follow the fallback rule. |
| PayrollPage.ZeroTotalsFallBack | frontend/src/pages/payroll/PayrollPage.tsx:128-130 | A period whose stored totals are 0 shows the record sums. |
| PayrollPage.ShownTotalsBalance | frontend/src/pages/payroll/PayrollPage.tsx:128-130 | When the sums are shown and records balance, the shown net is the shown gross minus the shown deductions. |
| PayrollPage.StoredTotalWins | frontend/src/pages/payroll/PayrollPage.tsx:128 | A non-zero stored gross is shown whatever the records say. |
| PayrollPage.OrSumServed | frontend/src/pages/payroll/PayrollPage.tsx:128-130 | `period?.total \|\| sum` for totals served as numbers or as decimal strings. A truthy stored total is shown, otherwise the sum. Served as numbers, it agrees with `OrSum`. |
| PayrollPage.ShownServed | backend/app/Models/PayrollPeriod.php:29-31 | The `decimal:2` casts serialise the totals as strings, which are always truthy. So with a period loaded, its stored totals are shown, zero or not. Served as numbers, the figures are `Shown`. With no period, they are the record sums. |
| PayrollPage.ZeroStringTotalsHideRecords | frontend/src/pages/payroll/PayrollPage.tsx:128 | A period whose gross is still "0.00" shows 0, although its record carries pay. The same period served with numbers shows the record's gross. |
| PayrollPage.CalculateRequest | frontend/src/pages/payroll/PayrollPage.tsx:84-96 | Calculate sends nothing when no period (or id 0) is selected. Otherwise it sends the selected id. |
| PayrollPage.StatusColour | frontend/src/pages/payroll/PayrollPage.tsx:109-117 | The colour is chosen by the lower-cased status, and unknown statuses are default. |
| PayrollPage.StatusColourIgnoresCase | frontend/src/pages/payroll/PayrollPage.tsx:110 | Status colours ignore letter case. |
| PayrollPage.CreateDisabled | frontend/src/pages/payroll/PayrollPage.tsx:318 | Create is enabled iff name, start and end are non-empty. |
| PayrollPage.InitialFormDisabled | frontend/src/pages/payroll/PayrollPage.tsx:44-49 | The empty form cannot be submitted. |
| AuditLogPage.FormatLogSubject | frontend/src/pages/admin/AuditLogPage.tsx:78-80 | The result is always a suffix of the input. An input with no backslash is unchanged, and one ending in a backslash comes back whole. Otherwise the result is the non-empty, backslash-free text after the last backslash. |
| AuditLogPage.NoBackslashUnlessTrailing | frontend/src/pages/admin/AuditLogPage.tsx:79 | The result has a backslash only if the input ends with one. |
| AuditLogPage.ModelClassShortName | frontend/src/pages/admin/AuditLogPage.tsx:79 | App\Models\Employee becomes Employee. |
| AuditLogPage.EventColour | frontend/src/pages/admin/AuditLogPage.tsx:65-76 | created → success, updated → info, deleted → error, and anything else → default. |
| PerformancePage.ProgressColour | frontend/src/pages/performance/PerformancePage.tsx:104-108 | Success iff ≥ 70, warning iff 40–69, error iff < 40. |
| PerformancePage.ProgressColourMonotone | frontend/src/pages/performance/PerformancePage.tsx:104-108 | More progress never gets a worse colour. |
| PerformancePage.StatusColour | frontend/src/pages/performance/PerformancePage.tsx:90-98 | The four known statuses get their colours, and anything else, cancelled included, gets error. |
| PerformancePage.UnderscoresToSpaces | frontend/src/pages/performance/PerformancePage.tsx:101 | Same length. Each underscore becomes a space, and nothing else changes. |
| PerformancePage.CapitaliseWords | frontend/src/pages/performance/PerformancePage.tsx:101 | Exactly the word characters that start a word are upper-cased. |
| PerformancePage.FallbackLabel | frontend/src/pages/performance/PerformancePage.tsx:101 | Same length as the status, with no underscore left. |
| PerformancePage.StatusLabel | frontend/src/pages/performance/PerformancePage.tsx:100-102 | The translation when one exists, the fallback label otherwise. |
| PerformancePage.FallbackExamples | frontend/src/pages/performance/PerformancePage.tsx:101 | not_started reads Not Started, and at_risk reads At Risk. |
| PerformancePage.CapitaliseWordsIdempotent | frontend/src/pages/performance/PerformancePage.tsx:101 | Capitalising twice is capitalising once. |
| PerformancePage.UnderscoresToSpacesKeepsPlain | frontend/src/pages/performance/PerformancePage.tsx:101 | A text without underscores is unchanged. |
| PerformancePage.UnderscoresToSpacesIdempotent | frontend/src/pages/performance/PerformancePage.tsx:101 | Replacing underscores twice is replacing them once. |
| PerformancePage.FallbackLabelIdempotent | frontend/src/pages/performance/PerformancePage.tsx:101 | The fallback label of a fallback label is that label. |
| PerformancePage.CompletionRate | frontend/src/pages/performance/PerformancePage.tsx:289 | 0 with no OKRs. Otherwise completed×100/total rounded to nearest, within 0..100 when completed ≤ total. |
| PerformancePage.AllCompletedIsFull | frontend/src/pages/performance/PerformancePage.tsx:289 | All OKRs completed is exactly 100. |
| PerformancePage.CreateDisabled | frontend/src/pages/performance/PerformancePage.tsx:332 | Create is enabled iff title, start date and end date are non-empty. |
| OnboardingPage.ToggledStatus | frontend/src/pages/onboarding/OnboardingPage.tsx:105 | Completed becomes pending, and every other status becomes completed. |
| OnboardingPage.ToggleTwiceRestores | frontend/src/pages/onboarding/OnboardingPage.tsx:105 | For pending and completed, two toggles restore the status. |
| OnboardingPage.ToggleTwiceResetsOthers | frontend/src/pages/onboarding/OnboardingPage.tsx:105 | For in-progress and skipped, two toggles give pending, so the toggle is no involution there. |
| OnboardingPage.StartDisabled | frontend/src/pages/onboarding/OnboardingPage.tsx:314 | Start is enabled iff an employee is chosen (id ≠ 0) and title, start and target dates are non-empty. |
| OnboardingPage.InitialFormDisabled | frontend/src/pages/onboarding/OnboardingPage.tsx:61-67 | The initial form cannot be submitted. |
| OnboardingPage.ChooseTemplate | frontend/src/pages/onboarding/OnboardingPage.tsx:294 | The empty option (or a falsy 0) stores no template, and any other id is stored as given. Other fields are untouched. |
| OnboardingPage.ChoiceRoundTrip | frontend/src/pages/onboarding/OnboardingPage.tsx:293-294 | The select shows a stored template, and choosing what it shows stores it back. |
| OnboardingPage.StatusIcon | frontend/src/pages/onboarding/OnboardingPage.tsx:117-123 | Completed and overdue have their own icons. Every other status gets the clock. |
| Notifications.Route | frontend/src/components/layout/TopBar.tsx:164-180 | leave, attendance, payroll and candidate lead to their pages. Every other type stays put. |
| Notifications.RoutesDistinct | frontend/src/components/layout/TopBar.tsx:164-180 | Different types never lead to the same page. |
| Notifications.TextOf | frontend/src/components/layout/TopBar.tsx:252-266 | The four known types are translated with their own field. Any other shows its message, or an empty text. |
| Notifications.TranslatedIffRouted | frontend/src/pages/notifications/NotificationsPage.tsx:103-117 | A notification is translated exactly when it also navigates. |
| Notifications.Open | frontend/src/pages/notifications/NotificationsPage.tsx:57-85 | Marks as read (by id) iff unread. A failed request stops the handler: no refresh and no navigation. Otherwise the list is refreshed iff it was unread, and it navigates by type. |
| Notifications.ReopenMakesNoCall | frontend/src/pages/notifications/NotificationsPage.tsx:59-62 | A read notification makes no request, so its outcome does not depend on one, and it leads to the page a successful first opening led to. |
| TopBar.Type | frontend/src/components/layout/TopBar.tsx:323 | Typing only records the query; a menu showing hits still shows hits. |
| TopBar.DebounceElapsed | frontend/src/components/layout/TopBar.tsx:95-125 | Searches iff the query has at least 2 characters. Otherwise results and menu are cleared. A successful answer opens the menu iff it has hits, and a failed one changes nothing. |
| TopBar.MenuOnlyOverHits | frontend/src/components/layout/TopBar.tsx:97-118 | Whatever is typed and answered, the menu is open only over at least one hit. |
| TopBar.ClickItem | frontend/src/components/layout/TopBar.tsx:127-135 | Closes the menu and clears the query. An employee goes to its profile, a department to the filtered list, and anything else nowhere. |
| TopBar.EmployeeLinkCarriesId | frontend/src/components/layout/TopBar.tsx:130-131 | The profile link's last part reads back as the employee id. |
| TopBar.OpenNotification | frontend/src/components/layout/TopBar.tsx:154-184 | Marks as read iff unread. The menu stays open exactly when that request fails, and then nothing navigates or refreshes. Otherwise the menu closes and it navigates by type. |
| TopBar.IconOf | frontend/src/components/layout/TopBar.tsx:230-239 | One icon per theme mode. |
| TopBar.LabelKeyOf | frontend/src/components/layout/TopBar.tsx:241-250 | light → settings.lightMode, dark → settings.darkMode, auto → settings.autoMode, each iff. |
| TopBar.ThemeButtonDistinguishesModes | frontend/src/components/layout/TopBar.tsx:230-250 | Different modes get different icons and labels. |
| NotificationsPage.HeaderOf | frontend/src/pages/notifications/NotificationsPage.tsx:130-132 | Shows the unread count iff it is positive. |
| NotificationsPage.MarkAllShown | frontend/src/pages/notifications/NotificationsPage.tsx:136 | The mark-all button shows iff some notification is unread. |
| NotificationsPage.MarkAllShownWithCount | frontend/src/pages/notifications/NotificationsPage.tsx:130-136 | The header and the button never disagree. |
| NotificationsPage.Dividers | frontend/src/pages/notifications/NotificationsPage.tsx:203 | A divider follows every item except the last. |
| NotificationsPage.DividerCount | frontend/src/pages/notifications/NotificationsPage.tsx:203 | n items are separated by exactly n − 1 dividers. |
| LeaveApprovalsPage.PendingOnly | frontend/src/pages/leaves/LeaveApprovalsPage.tsx:25 | Lists exactly the pending requests, in the server's order. |
| LeaveApprovalsPage.PendingOnlyKeepsPendingList | frontend/src/pages/leaves/LeaveApprovalsPage.tsx:25 | A list of pending requests is shown whole. |
| LeaveApprovalsPage.PendingOnlyIdempotent | frontend/src/pages/leaves/LeaveApprovalsPage.tsx:25 | Filtering the listed requests again changes nothing. |
| LeaveApprovalsPage.Approve | frontend/src/pages/leaves/LeaveApprovalsPage.tsx:39-47 | Sends approved for the request iff the confirmation is accepted. |
| LeaveApprovalsPage.RejectClick | frontend/src/pages/leaves/LeaveApprovalsPage.tsx:49-52 | Remembers the request and opens the dialog. |
| LeaveApprovalsPage.EnterReason | frontend/src/pages/leaves/LeaveApprovalsPage.tsx:160-161 | Typing sets the reason and nothing else. |
| LeaveApprovalsPage.RejectConfirm | frontend/src/pages/leaves/LeaveApprovalsPage.tsx:54-68 | Does nothing with no selection. Otherwise it sends rejected with the typed reason. On success it closes the dialog and clears reason and selection. |
| LeaveApprovalsPage.RejectSendsTypedReason | frontend/src/pages/leaves/LeaveApprovalsPage.tsx:49-60 | Click, type and confirm rejects that request with exactly that reason. |
| LeaveApprovalsPage.RejectConfirmOnce | frontend/src/pages/leaves/LeaveApprovalsPage.tsx:61-63 | After a successful reject, a second confirm sends nothing. |
| EmployeeListPage.OfferedPagesAreNonEmpty | frontend/src/pages/employees/EmployeeListPage.tsx:58 | Every page the control offers starts at an existing employee, given per_page = 10. |
| EmployeeListPage.StatusCounts | frontend/src/pages/employees/EmployeeListPage.tsx:142-154 | The active and on-leave counts are the two filters' sizes, and their sum is at most the page's rows. |
| EmployeeListPage.StatusColour | frontend/src/pages/employees/EmployeeListPage.tsx:69-80 | active → success, on_leave → warning, suspended → error, and everything else, terminated included → default. |
| EmployeeListPage.CountsMatchChips | frontend/src/pages/employees/EmployeeListPage.tsx:69-154 | An employee counted as active has the success chip, and one on leave has the warning chip. |
| EmployeeListPage.DeleteConfirm | frontend/src/pages/employees/EmployeeListPage.tsx:88-101 | Does nothing with no employee chosen. Otherwise it deletes that one and, on success, closes the dialog. |
| EmployeeListPage.DeleteClickedEmployee | frontend/src/pages/employees/EmployeeListPage.tsx:82-92 | Confirming deletes exactly the clicked employee. |
| RecruitmentPage.PipelineStagesOfEnum | frontend/src/pages/recruitment/RecruitmentPage.tsx:30-38 | Seven distinct columns, the first seven stages in enum order. Rejected and withdrawn have none. |
| RecruitmentPage.Column | frontend/src/pages/recruitment/RecruitmentPage.tsx:259 | A column holds exactly the applications at its stage, in fetched order. |
| RecruitmentPage.ColumnsFor | frontend/src/pages/recruitment/RecruitmentPage.tsx:258-259 | One column per listed stage, in order, each holding that stage's applications. |
| RecruitmentPage.Board | frontend/src/pages/recruitment/RecruitmentPage.tsx:258-259 | The board has seven columns. |
| RecruitmentPage.ClosedApplicationsOffBoard | frontend/src/pages/recruitment/RecruitmentPage.tsx:259 | Rejected and withdrawn applications are in no column. |
| RecruitmentPage.AtMostOneColumn | frontend/src/pages/recruitment/RecruitmentPage.tsx:259 | No application is in two columns. |
| RecruitmentPage.CardsArePlacedApplications | frontend/src/pages/recruitment/RecruitmentPage.tsx:258-259 | For distinct stages, the cards on the board are exactly the applications whose stage has a column. |
| RecruitmentPage.BoardCountsAtMostTotal | frontend/src/pages/recruitment/RecruitmentPage.tsx:258-259 | The column counts sum to at most the total. They equal it iff none is rejected or withdrawn. |
| RecruitmentPage.SalaryOf | frontend/src/pages/recruitment/RecruitmentPage.tsx:89-90 | An empty field is omitted. Digits are sent as their number, and other text is not a number. |
| RecruitmentPage.SalaryRoundTrip | frontend/src/pages/recruitment/RecruitmentPage.tsx:89-90 | A salary typed as its digits is sent as that number. |
| RecruitmentPage.SalaryRange | frontend/src/pages/recruitment/RecruitmentPage.tsx:89-90 | Each bound is omitted iff its field is empty. |
| RecruitmentPage.CreateDisabled | frontend/src/pages/recruitment/RecruitmentPage.tsx:331 | Create is enabled iff title, description and location are non-empty. |
| RecruitmentPage.PublishOffered | frontend/src/pages/recruitment/RecruitmentPage.tsx:214 | Publish is offered iff the job is a draft. |
| RecruitmentPage.Publish | frontend/src/pages/recruitment/RecruitmentPage.tsx:100-103 | Publishing keeps the job's id and sets its status to published. |
| RecruitmentPage.PublishOnce | frontend/src/pages/recruitment/RecruitmentPage.tsx:100-103 | A published job offers no second publish and shows as published. |
| RecruitmentPage.StatusColour | frontend/src/pages/recruitment/RecruitmentPage.tsx:105-112 | published → success, draft → default, closed → error, and anything else → warning. |
| SettingsPage.StoredName | frontend/src/pages/settings/SettingsPage.tsx:80 | The user's name, else the employee's full name, else empty. |
| SettingsPage.StoredEmail | frontend/src/pages/settings/SettingsPage.tsx:81 | The user's email, else empty. |
| SettingsPage.DefaultsAllOn | frontend/src/pages/settings/SettingsPage.tsx:69-74 | The four notification switches start on. |
| SettingsPage.Seed | frontend/src/pages/settings/SettingsPage.tsx:78-86 | A loaded user fills name and email. Stored settings replace the switches, which are otherwise kept. |
| SettingsPage.SetSwitch | frontend/src/pages/settings/SettingsPage.tsx:322 | Flipping one switch leaves the others and the profile fields alone. |
| SettingsPage.HasChanges | frontend/src/pages/settings/SettingsPage.tsx:117-118 | True iff the name or email differs from the stored one. |
| SettingsPage.SaveDisabled | frontend/src/pages/settings/SettingsPage.tsx:279 | Save is enabled iff not loading and there are changes. |
| SettingsPage.SeededFormUnchanged | frontend/src/pages/settings/SettingsPage.tsx:78-118 | Right after the user loads there is nothing to save. |
| SettingsPage.SwitchesAreNotProfileChanges | frontend/src/pages/settings/SettingsPage.tsx:117-118 | Switches never count as profile changes. |
| SettingsPage.EditedNameIsSavable | frontend/src/pages/settings/SettingsPage.tsx:117-118 | Typing a different name enables save when not loading. |
| ResetPasswordPage.Param | frontend/src/pages/auth/ResetPasswordPage.tsx:17-18 | A missing parameter is empty. |
| ResetPasswordPage.InvalidLink | frontend/src/pages/auth/ResetPasswordPage.tsx:62 | The invalid-link view shows iff token or email is empty, and so whenever either is missing. |
| ResetPasswordPage.Change | frontend/src/pages/auth/ResetPasswordPage.tsx:28-34 | Editing a field sets it, keeps the other, and clears the error. |
| ResetPasswordPage.OrFallback | frontend/src/pages/auth/ResetPasswordPage.tsx:53 | A non-empty server message is shown, and otherwise the fixed text. |
| ResetPasswordPage.Submit | frontend/src/pages/auth/ResetPasswordPage.tsx:36-60 | A mismatch sets the error and sends nothing. Otherwise it sends the link's token and email with the passwords. Success sets the message and redirects, and failure sets the error. |
| ResetPasswordPage.SentRequestsAreWellFormed | frontend/src/pages/auth/ResetPasswordPage.tsx:38-51 | Every request sent has matching passwords. From a valid link it has a non-empty token and email. |
| ResetPasswordPage.MismatchClearedByEditing | frontend/src/pages/auth/ResetPasswordPage.tsx:28-41 | A mismatch error is cleared by the next edit. |

## Left out

- Controllers, payroll calculation and period approval: they are not part of this model. The only trace of them is their routes.
- Network, storage and timing:
  - API calls, `localStorage` and the router are represented only by their inputs and outputs (a response parameter, an `Option` request, a target path).
  - The 500 ms search debounce, the 3-second redirect, the clock interval and `Promise.all` ordering are not modelled.
- Floating point:
  - PHP and JavaScript `round` of a floating-point quotient are modelled as exact round-half-up on integers (`Numeric.RoundedPercent`).
  - A quotient that lands just below .5 in binary floating point could round differently.
- JavaScript coercions:
  - `Number(text)` is modelled as decimal digits only (`RecruitmentPage.SalaryOf`, `Breadcrumbs.LabelOf`). Signs, decimals, exponents and surrounding whitespace are not.
  - `toLowerCase` and `toUpperCase` are ASCII only, and `\w` is ASCII word characters.
  - String length counts characters, not UTF-16 code units.
- `encodeURIComponent` is a parameter of `TopBar.ClickItem`, not modelled.
- i18n: a translation is represented by its key, and `t`'s lookup is a map parameter (`PerformancePage.StatusLabel`).
- Database engine:
  - varchar lengths and decimal precision (12,2 etc.) are not enforced.
  - An explicit NULL in a NOT NULL column is not modelled: a payload either gives a value or leaves the column out.
  - Which error the engine reports first, when several apply, is not modelled. Only the first missing column is named.
- Database.DeleteUser: models only the set-null effect on the modelled tables. The users table's other dependants are not part of this model.
- PayrollPage.Shown: takes the totals to be numbers, as the frontend types declare. The shipped backend casts them as `decimal:2` (backend/app/Models/PayrollPeriod.php:29-31). Laravel serialises those as strings such as "0.00", which are truthy. So unless a controller outside this model converts them, the zero fallback that `Shown`, `ZeroTotalsFallBack` and `ShownTotalsBalance` describe never fires for a loaded period. `ShownServed` models the string form. The record sums (`SumGross`, `SumDeductions`, `SumNet`) are exact sums of cents, while the page adds `Number(...)` floats, which can be off by float rounding.
- SalaryStructure.TotalAllowancesExact: holds of the model's integer cents. The source adds the three `decimal:2` values, which reach PHP as numeric strings and are added as floats, so the real total can carry float rounding (`0.10 + 0.20` is not exactly `0.30`).
- Breadcrumbs.CrumbsFor: uses the own-key lookup `LabelOf`. The page's lookup (`LabelAsWritten`) also finds the names inherited from `Object.prototype` (see Findings).
- AttendancePage.TodayRecord: one time-zone offset is used for every date. Around a daylight-saving change, the offset at a record's UTC midnight can differ from today's; this is not modelled. The model also assumes `record_date` reaches the page as midnight UTC, which is how a `date` cast serialises (and how a bare `YYYY-MM-DD` parses).
- DashboardPage.OnDragEnd: requires an in-range source index, which the drag library guarantees. The destination is clamped, as `splice` does.
- Rendering, styling, charts, the landing page and route tables are out of scope.

## Findings

| source | as written | input that shows it | evidently intended | confidence | as-written member | corrected member |
|---|---|---|---|---|---|---|
| backend/app/Models/OnboardingChecklist.php:56-57 | The status is read off the rounded percentage | 200 required tasks with 199 completed: 99.5 rounds to 100, so the status is completed with one required task pending | completed only when every required task is completed | medium, not executed | OnboardingChecklist.CompletedWithPendingRequiredTask | OnboardingChecklist.UpdateProgressByCount |
| backend/app/Models/OnboardingChecklist.php:56-57 | The status is read off the rounded percentage | 201 required tasks with 1 completed: 0.497 rounds to 0, so the status is not_started although a task is done | in_progress as soon as one required task is completed | medium, not executed | OnboardingChecklist.NotStartedWithCompletedTask | OnboardingChecklist.UpdateProgressByCount |
| frontend/src/components/common/Breadcrumbs.tsx:59 | The segment's name is read as a property of an object literal, so inherited members are found too | `/employees/__proto__`, which the `/employees/:id` route accepts, gives the prototype object as the last crumb's child, and React throws when rendering it; `constructor`, `toString` and the other inherited methods give a function child, which renders nothing | look the segment up among the map's own keys, and show it verbatim otherwise | medium, not executed | Breadcrumbs.ProtoSegmentCrashes | Breadcrumbs.LabelOf |
| frontend/src/pages/attendance/AttendancePage.tsx:64-66 | Today's record is the one whose `record_date`, parsed by `new Date` (as midnight UTC) and printed in local time, names today | In a browser five hours west of UTC, a record dated today reads as yesterday, so an employee clocked in today is offered clock in again | compare the record's calendar date with the local date | medium, not executed | AttendancePage.ClockInOfferedAgainWestOfUtc | AttendancePage.RecordOn |
