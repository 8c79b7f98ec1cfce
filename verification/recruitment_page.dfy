/** The recruitment page: the pipeline board that groups applications into
    stage columns, the new-job form and the job cards' publish action. */
module RecruitmentPage {

  import opened Wrappers
  import opened Seqs
  import opened Strings
  import JA = JobApplications
  import Ui

  /** An application as the board sees it. */
  datatype Application = Application(id: nat, stage: JA.Stage)

  /** The board's columns, left to right. Rejected and withdrawn applications
      have no column. */
  const PipelineStages: seq<JA.Stage> :=
    [JA.Applied, JA.Screening, JA.PhoneInterview, JA.TechnicalInterview,
     JA.OnsiteInterview, JA.Offer, JA.Hired]

  /** The columns are the first seven stages of the `stage` column's enum, in
      its order, each once; the last two stages have none. */
  lemma PipelineStagesOfEnum()
    ensures |PipelineStages| == 7 && NoDuplicates(PipelineStages)
    ensures forall i :: 0 <= i < 7 ==> JA.StageName(PipelineStages[i]) == JA.StageNames[i]
    ensures JA.Rejected !in PipelineStages && JA.Withdrawn !in PipelineStages
  {
  }

  /** One column: the applications at `stage`, in the order they were fetched. */
  function Column(apps: seq<Application>, stage: JA.Stage): (col: seq<Application>)
    ensures forall a :: a in col <==> a in apps && a.stage == stage
    ensures Subseq(col, apps)
  {
    Filter((a: Application) => a.stage == stage, apps)
  }

  /** The columns for `stages`, one per stage. */
  function ColumnsFor(stages: seq<JA.Stage>, apps: seq<Application>): (cols: seq<seq<Application>>)
    ensures |cols| == |stages|
    ensures forall i :: 0 <= i < |stages| ==> cols[i] == Column(apps, stages[i])
    decreases |stages|
  {
    if stages == [] then [] else [Column(apps, stages[0])] + ColumnsFor(stages[1..], apps)
  }

  /** The board. */
  function Board(apps: seq<Application>): (cols: seq<seq<Application>>)
    ensures |cols| == 7
  {
    ColumnsFor(PipelineStages, apps)
  }

  /** A rejected or withdrawn application is in no column. */
  lemma ClosedApplicationsOffBoard(apps: seq<Application>, a: Application, i: nat)
    requires a.stage == JA.Rejected || a.stage == JA.Withdrawn
    requires i < 7
    ensures a !in Board(apps)[i]
  {
  }

  /** No application is in two columns. */
  lemma AtMostOneColumn(apps: seq<Application>, a: Application, i: nat, j: nat)
    requires i < 7 && j < 7
    requires a in Board(apps)[i] && a in Board(apps)[j]
    ensures i == j
  {
    PipelineStagesOfEnum();
  }

  /** The applications whose stage has a column among `stages`. */
  function Placed(stages: seq<JA.Stage>, apps: seq<Application>): seq<Application> {
    Filter(InStages(stages), apps)
  }

  function InStages(stages: seq<JA.Stage>): Application -> bool {
    (a: Application) => a.stage in stages
  }

  /** The number of cards on the board. */
  function TotalSize(cols: seq<seq<Application>>): nat
    decreases |cols|
  {
    if cols == [] then 0 else |cols[0]| + TotalSize(cols[1..])
  }

  function CardCount(stages: seq<JA.Stage>, apps: seq<Application>): nat {
    TotalSize(ColumnsFor(stages, apps))
  }

  lemma ColumnCons(a: Application, rest: seq<Application>, stage: JA.Stage)
    ensures Column([a] + rest, stage) == (if a.stage == stage then [a] else []) + Column(rest, stage)
  {
    assert ([a] + rest)[1..] == rest;
  }

  lemma PlacedCons(stages: seq<JA.Stage>, a: Application, rest: seq<Application>)
    ensures |Placed(stages, [a] + rest)| == |Placed(stages, rest)| + (if a.stage in stages then 1 else 0)
  {
    assert ([a] + rest)[1..] == rest;
  }

  lemma CardCountEmpty(stages: seq<JA.Stage>)
    ensures CardCount(stages, []) == 0
    decreases |stages|
  {
    if stages != [] {
      CardCountEmpty(stages[1..]);
      var cols := ColumnsFor(stages, []);
      assert cols[1..] == ColumnsFor(stages[1..], []);
    }
  }

  /** One more application adds one card if its stage has a column, none otherwise. */
  lemma {:induction false} CardCountCons(stages: seq<JA.Stage>, a: Application, rest: seq<Application>)
    requires NoDuplicates(stages)
    ensures CardCount(stages, [a] + rest) == CardCount(stages, rest) + (if a.stage in stages then 1 else 0)
    decreases |stages|
  {
    if stages != [] {
      var tail := stages[1..];
      assert NoDuplicates(tail) by {
        forall i, j | 0 <= i < j < |tail| ensures tail[i] != tail[j] {
          assert tail[i] == stages[i + 1] && tail[j] == stages[j + 1];
        }
      }
      CardCountCons(tail, a, rest);
      ColumnCons(a, rest, stages[0]);
      var withA := ColumnsFor(stages, [a] + rest);
      var without := ColumnsFor(stages, rest);
      assert withA[1..] == ColumnsFor(tail, [a] + rest);
      assert without[1..] == ColumnsFor(tail, rest);
      if a.stage == stages[0] {
        assert a.stage !in tail;
      }
      assert a.stage in stages <==> a.stage == stages[0] || a.stage in tail;
    }
  }

  /** With distinct stages, the cards on the board are exactly the
      applications whose stage has a column: none is lost, none doubled. */
  lemma {:induction false} CardsArePlacedApplications(stages: seq<JA.Stage>, apps: seq<Application>)
    requires NoDuplicates(stages)
    ensures CardCount(stages, apps) == |Placed(stages, apps)|
    decreases |apps|
  {
    if apps == [] {
      CardCountEmpty(stages);
    } else {
      var a, rest := apps[0], apps[1..];
      assert apps == [a] + rest;
      CardsArePlacedApplications(stages, rest);
      CardCountCons(stages, a, rest);
      PlacedCons(stages, a, rest);
    }
  }

  /** Exactly the rejected and withdrawn stages lack a column. */
  lemma OnBoardIff(stage: JA.Stage)
    ensures stage in PipelineStages <==> stage != JA.Rejected && stage != JA.Withdrawn
  {
  }

  function Anything(a: Application): bool { true }

  /** The column counts add up to at most the number of applications, with
      equality exactly when none is rejected or withdrawn. */
  lemma BoardCountsAtMostTotal(apps: seq<Application>)
    ensures TotalSize(Board(apps)) <= |apps|
    ensures TotalSize(Board(apps)) == |apps| <==>
              forall i :: 0 <= i < |apps| ==> apps[i].stage != JA.Rejected && apps[i].stage != JA.Withdrawn
  {
    PipelineStagesOfEnum();
    CardsArePlacedApplications(PipelineStages, apps);
    CountImplied(Anything, InStages(PipelineStages), apps);
    FilterAll(Anything, apps);
    forall i | 0 <= i < |apps|
      ensures InStages(PipelineStages)(apps[i]) <==> apps[i].stage != JA.Rejected && apps[i].stage != JA.Withdrawn
    {
      OnBoardIff(apps[i].stage);
    }
  }

  /** What a salary field sends: nothing for an empty field, else `Number(text)`,
      which is not a number for text that is not decimal digits. */
  datatype SalaryValue = Omitted | Amount(value: nat) | NotANumber

  function SalaryOf(text: string): (v: SalaryValue)
    ensures v.Omitted? <==> text == ""
    ensures v.Amount? <==> text != "" && IsDigits(text)
    ensures v.Amount? ==> ParseNumber(text) == Some(v.value)
  {
    if text == "" then Omitted
    else match ParseNumber(text)
      case Some(n) => Amount(n)
      case None => NotANumber
  }

  /** A salary typed as its decimal digits is sent as that number. */
  lemma SalaryRoundTrip(n: nat)
    ensures SalaryOf(NatToString(n)) == Amount(n)
  {
    ParseNatToString(n);
  }

  /** The new-job form's text fields. */
  datatype JobForm = JobForm(
    title: string, description: string, location: string, department: string,
    salaryMin: string, salaryMax: string)

  function CreateDisabled(f: JobForm): (b: bool)
    ensures !b <==> f.title != "" && f.description != "" && f.location != ""
  {
    f.title == "" || f.description == "" || f.location == ""
  }

  /** The `salary_min` and `salary_max` values a created job carries. */
  function SalaryRange(f: JobForm): (r: (SalaryValue, SalaryValue))
    ensures r.0.Omitted? <==> f.salaryMin == ""
    ensures r.1.Omitted? <==> f.salaryMax == ""
  {
    (SalaryOf(f.salaryMin), SalaryOf(f.salaryMax))
  }

  /** A job card: its id and `status`. */
  datatype Job = Job(id: nat, status: string)

  /** The publish button is shown only on draft jobs, and publishing sets the
      status to `published`. */
  function PublishOffered(j: Job): (b: bool)
    ensures b <==> j.status == "draft"
  {
    j.status == "draft"
  }

  function Publish(j: Job): (r: Job)
    ensures r.id == j.id && r.status == "published"
  {
    j.(status := "published")
  }

  /** A published job offers no second publish and shows as published. */
  lemma PublishOnce(j: Job)
    ensures !PublishOffered(Publish(j))
    ensures StatusColour(Publish(j).status) == Ui.Success
  {
  }

  /** `getStatusColor` for job postings: any status not listed, on hold
      included, is a warning. */
  function StatusColour(status: string): (c: Ui.Colour)
    ensures c == Ui.Success <==> status == "published"
    ensures c == Ui.Default <==> status == "draft"
    ensures c == Ui.Error <==> status == "closed"
    ensures c == Ui.Warning <==> status !in {"published", "draft", "closed"}
  {
    match status
    case "published" => Ui.Success
    case "draft" => Ui.Default
    case "closed" => Ui.Error
    case _ => Ui.Warning
  }
}
