/** The breadcrumb trail: the current path cut into its non-empty segments,
    a fixed home crumb, then one crumb per segment linking to the path up to
    and including that segment; the last crumb is plain text. */
module Breadcrumbs {

  import opened Wrappers
  import opened Seqs
  import opened Strings

  predicate NonEmpty(s: string) {
    |s| > 0
  }

  /** `pathname.split('/').filter(x => x)`. */
  function Segments(path: string): (segs: seq<string>)
    ensures forall i :: 0 <= i < |segs| ==> |segs[i]| > 0 && '/' !in segs[i]
    ensures Subseq(segs, Split(path, '/'))
    ensures forall p :: p in Split(path, '/') && |p| > 0 ==> p in segs
    ensures |segs| == Count(NonEmpty, Split(path, '/'))
  {
    var pieces := Split(path, '/');
    var segs := Filter(NonEmpty, pieces);
    assert forall i :: 0 <= i < |segs| ==> segs[i] in segs;
    segs
  }

  /** What a crumb displays: a translation key, or the segment itself. The
      last two arise only from the as-written lookup below: a method found on
      the object prototype (React renders nothing for a function child), and
      the prototype object itself (React refuses an object child and throws). */
  datatype Label =
    | Translated(key: string)
    | Verbatim(text: string)
    | FunctionChild(name: string)
    | PrototypeObject

  /** Whether React can render a label as a child. */
  predicate Renders(l: Label) {
    l.Translated? || l.Verbatim?
  }

  /** Segments with a label of their own, by translation key. */
  const NameMap: map<string, string> := map[
    "dashboard" := "common.dashboard",
    "employees" := "common.employees",
    "attendance" := "common.attendance",
    "leaves" := "common.leave",
    "payroll" := "common.payroll",
    "performance" := "common.performance",
    "recruitment" := "common.recruitment",
    "onboarding" := "common.onboarding",
    "reports" := "common.reports",
    "settings" := "common.settings",
    "notifications" := "notifications.title",
    "profile" := "settings.profile"
  ]

  /** A numeric segment (an id) reads "view"; a known segment its mapped
      label; any other segment itself. Numbers are decimal digit strings. */
  function LabelOf(segment: string): (l: Label)
    ensures IsDigits(segment) ==> l == Translated("common.view")
    ensures !IsDigits(segment) && segment in NameMap ==> l == Translated(NameMap[segment])
    ensures !IsDigits(segment) && segment !in NameMap ==> l == Verbatim(segment)
    ensures Renders(l)
  {
    if IsDigits(segment) then Translated("common.view")
    else if segment in NameMap then Translated(NameMap[segment])
    else Verbatim(segment)
  }

  /** The methods every object literal inherits from `Object.prototype`. */
  const InheritedMethods: set<string> := {
    "constructor", "toString", "toLocaleString", "valueOf", "hasOwnProperty",
    "isPrototypeOf", "propertyIsEnumerable", "__defineGetter__",
    "__defineSetter__", "__lookupGetter__", "__lookupSetter__"
  }

  /** The accessor every object literal inherits; it reads back the prototype. */
  const ProtoName: string := "__proto__"

  /** The label as the page computes it: `breadcrumbNameMap[value] || value`
      is a property read, so it also finds the inherited members, and they
      are truthy, so they win over the segment. */
  function LabelAsWritten(segment: string): (l: Label)
    ensures segment != ProtoName && segment !in InheritedMethods ==> l == LabelOf(segment)
    ensures segment in InheritedMethods ==> l == FunctionChild(segment)
    ensures segment == ProtoName ==> l == PrototypeObject
    ensures Renders(l) <==> segment != ProtoName && segment !in InheritedMethods
  {
    assert segment in InheritedMethods || segment == ProtoName ==> !IsDigit(segment[0]);
    if IsDigits(segment) then Translated("common.view")
    else if segment == ProtoName then PrototypeObject
    else if segment in InheritedMethods then FunctionChild(segment)
    else LabelOf(segment)
  }

  /** The path `/employees/__proto__`, which the `/employees/:id` route accepts. */
  const ProtoPath: string := "/employees/__proto__"

  /** Its segments: the last is `__proto__`. */
  lemma ProtoPathSegments()
    ensures Segments(ProtoPath) == ["employees", ProtoName]
  {
    assert Join(["employees", ProtoName], '/') == "employees" + "/" + ProtoName;
    assert PathOf(["employees", ProtoName]) == ProtoPath;
    SegmentsOfPath(["employees", ProtoName]);
  }

  /** On that path the page's lookup yields the prototype object for the
      last crumb, so rendering throws, while the own-key lookup shows the
      segment itself. */
  lemma ProtoSegmentCrashes()
    ensures LabelAsWritten(ProtoName) == PrototypeObject
    ensures LabelOf(ProtoName) == Verbatim(ProtoName)
  {
    assert !IsDigits(ProtoName) by {
      assert !IsDigit(ProtoName[0]);
    }
    assert ProtoName !in NameMap;
  }

  /** One crumb: its target, its label, and whether it is a link (else plain text). */
  datatype Crumb = Crumb(to: string, caption: Label, isLink: bool)

  const Home: Crumb := Crumb("/dashboard", Translated("common.dashboard"), true)

  /** The target of the crumb for segment `i`: `/` and the first i+1 segments joined by `/`. */
  function LinkTo(segs: seq<string>, i: nat): string
    requires i < |segs|
  {
    "/" + Join(segs[..i + 1], '/')
  }

  /** Whether the trail is shown: not at the root, not at exactly `/dashboard`. */
  predicate Shown(segs: seq<string>) {
    !(|segs| == 0 || (segs[0] == "dashboard" && |segs| == 1))
  }

  /** The home crumb, then one crumb per segment; only the last is plain text. */
  function CrumbsFor(segs: seq<string>): (r: seq<Crumb>)
    ensures |r| == |segs| + 1
    ensures r[0] == Home
    ensures forall i :: 0 <= i < |segs| ==> r[i + 1].to == LinkTo(segs, i)
    ensures forall i :: 0 <= i < |segs| ==> r[i + 1].caption == LabelOf(segs[i])
    ensures forall i :: 1 <= i < |r| ==> (r[i].isLink <==> i < |segs|)
  {
    var tail := seq(|segs|, i requires 0 <= i < |segs| => CrumbAt(segs, i));
    var r := [Home] + tail;
    assert forall i :: 0 <= i < |segs| ==> r[i + 1] == CrumbAt(segs, i);
    r
  }

  /** The crumb for segment `i`: its link, its label, and whether it links. */
  function CrumbAt(segs: seq<string>, i: nat): Crumb
    requires i < |segs|
  {
    Crumb(LinkTo(segs, i), LabelOf(segs[i]), i != |segs| - 1)
  }

  /** The trail for a path, or None when nothing is rendered. */
  function Trail(path: string): (r: Option<seq<Crumb>>)
    ensures r.None? <==> !Shown(Segments(path))
    ensures r.Some? ==>
              var segs := Segments(path);
              && |r.value| == |segs| + 1
              && r.value[0] == Home
              && (forall i :: 0 <= i < |segs| ==> r.value[i + 1].to == LinkTo(segs, i))
              && (forall i :: 0 <= i < |segs| ==> r.value[i + 1].caption == LabelOf(segs[i]))
              && (forall i :: 1 <= i < |r.value| ==> (r.value[i].isLink <==> i < |segs|))
  {
    var segs := Segments(path);
    if !Shown(segs) then None else Some(CrumbsFor(segs))
  }

  /** Every crumb renders, whatever the segments. */
  lemma CrumbsRender(segs: seq<string>)
    ensures forall i :: 0 <= i < |CrumbsFor(segs)| ==> Renders(CrumbsFor(segs)[i].caption)
  {
    var r := CrumbsFor(segs);
    forall i | 0 <= i < |r|
      ensures Renders(r[i].caption)
    {
      if i > 0 {
        assert r[i].caption == LabelOf(segs[i - 1]);
      }
    }
  }

  /** The root shows nothing. */
  lemma RootHidden()
    ensures Trail("/").None?
  {
    assert "/"[1..] == "";
    assert Split("/", '/') == ["", ""];
    assert Segments("/") == [];
  }

  /** Exactly `/dashboard` shows nothing. */
  lemma DashboardHidden()
    ensures Trail("/dashboard").None?
  {
    assert PathOf(["dashboard"]) == "/dashboard";
    SegmentsOfPath(["dashboard"]);
  }

  /** A page below the dashboard does show a trail. */
  lemma DashboardChildShown()
    ensures Trail("/dashboard/x").Some?
  {
    assert Join(["dashboard", "x"], '/') == "dashboard" + "/" + "x";
    assert PathOf(["dashboard", "x"]) == "/dashboard/x";
    SegmentsOfPath(["dashboard", "x"]);
  }

  /** Each crumb's target is a prefix of the next one's: the next adds `/` and one segment. */
  lemma {:induction false} LinksExtendOneSegment(segs: seq<string>, i: nat)
    requires i + 1 < |segs|
    ensures LinkTo(segs, i + 1) == LinkTo(segs, i) + "/" + segs[i + 1]
    ensures LinkTo(segs, i) <= LinkTo(segs, i + 1)
  {
    assert segs[..i + 2] == segs[..i + 1] + [segs[i + 1]];
    JoinSnoc(segs[..i + 1], segs[i + 1], '/');
  }

  /** A path in normal form: a slash before each of its non-empty, slash-free segments. */
  function PathOf(segs: seq<string>): string {
    "/" + Join(segs, '/')
  }

  /** Cutting a path in normal form gives back its segments, so the last
      crumb targets the path itself. */
  lemma {:induction false} SegmentsOfPath(segs: seq<string>)
    requires |segs| >= 1
    requires forall i :: 0 <= i < |segs| ==> |segs[i]| > 0 && '/' !in segs[i]
    ensures Segments(PathOf(segs)) == segs
    ensures LinkTo(segs, |segs| - 1) == PathOf(segs)
  {
    var p := PathOf(segs);
    SplitJoin(segs, '/');
    assert p[1..] == Join(segs, '/');
    assert Split(p, '/') == [""] + segs;
    FilterAll(NonEmpty, segs);
    assert segs[..|segs|] == segs;
  }
}
