/**
 The external-result accountant and its mutation controls.

 JSON and XML arrive as parsed trees: reading and writing them, SHA-256, decimal numbers,
 dates and path names are parameters (`Tools`).  Every check is made in the order of the
 program, because the order decides which single code a refusal carries.
 */
module Accountant {
  import opened Common

  type Bytes = seq<int>

  datatype Json =
    | Null
    | Bool(b: bool)
    | Int(n: int)
    | Fraction(literal: string)                // any other number
    | Text(s: string)
    | List(items: seq<Json>)
    | Object(fields: map<string, Json>)

  datatype Element = Element(tag: string, attrib: map<string, string>, children: seq<Element>)

  /** A failed requirement; `invalid` separates unusable input from refused evidence. */
  datatype Reject = Reject(code: string, invalid: bool)

  datatype Loaded = Value(json: Json) | Unloadable(reason: Reject)
  datatype Parsed = Tree(root: Element) | Unparsable(reason: Reject)

  type Case = seq<string>
  datatype Row = Row(id: Case, outcome: string)
  datatype Rows = Listed(rows: seq<Row>) | Refused(reason: Reject)

  datatype Tools = Tools(
    sha: Bytes -> string,
    load: Bytes -> Loaded,
    dump: Json -> Bytes,
    parse: Bytes -> Parsed,
    render: Element -> Bytes,
    finite: string -> bool,                    // a finite, nonnegative decimal number
    instant: string -> Option<Option<int>>,    // a date, and its instant when it has a zone
    baseName: string -> string,
    tester: Bytes -> Rows)                     // the other report profile

  const MAX_BYTES := 16777216
  const MAX_CASES := 100000
  const TESTER := "bluez-tester-v1"
  const PYTEST := "pytest-xunit2-v1"

  const Schema := Reject("schema", true)
  const Format := Reject("report-format", false)
  const Input := Reject("input", true)

  // ---- shapes ------------------------------------------------------------

  function Get(j: Json, key: string): Json { if j.Object? && key in j.fields then j.fields[key] else Null }
  function Items(j: Json): seq<Json> { if j.List? then j.items else [] }
  function Str(j: Json): string { if j.Text? then j.s else "" }
  function Strs(js: seq<Json>): seq<string> { seq(|js|, i requires 0 <= i < |js| => Str(js[i])) }

  predicate Fields(j: Json, names: set<string>) { j.Object? && j.fields.Keys == names }

  predicate Space(c: char) {
    c == ' ' || c == '\U{85}' || c == '\U{A0}' || c == '\U{1680}' || '\U{2000}' <= c <= '\U{200A}' ||
    c == '\U{2028}' || c == '\U{2029}' || c == '\U{202F}' || c == '\U{205F}' || c == '\U{3000}'
  }

  /** `text`: not blank, and free of control characters. */
  predicate Texty(s: string) {
    (exists i :: 0 <= i < |s| && !Space(s[i])) && forall i | 0 <= i < |s| :: ' ' <= s[i]
  }
  predicate TextOk(j: Json) { j.Text? && Texty(j.s) }

  predicate CaseOk(j: Json, profile: string) {
    j.List? && |j.items| == (if profile == TESTER then 1 else 2) && forall i | 0 <= i < |j.items| :: TextOk(j.items[i])
  }
  function Cases(js: seq<Json>): seq<Case> { seq(|js|, i requires 0 <= i < |js| => Strs(Items(js[i]))) }

  predicate Distinct<T(==)>(s: seq<T>) { forall i, j | 0 <= i < j < |s| :: s[i] != s[j] }
  function Elements<T>(s: seq<T>): set<T> { set x | x in s }

  // ---- the reviewed policy -----------------------------------------------

  const POLICY: set<string> :=
    {"schema_version", "suite", "profile", "producer", "required", "exclusions", "prerequisites",
      "prerequisite_rationale"}

  function Producer(profile: string): Json {
    if profile == TESTER
    then Object(map["name" := Text("bluez"), "revision" := Text("4dc15be8ee3f7422d447087f1893d215575cb2c8")])
    else Object(map["name" := Text("pytest"), "version" := Text("8.4.2")])
  }

  function Profile(policy: Json): string { Str(Get(policy, "profile")) }
  function Required(policy: Json): seq<Case> { Cases(Items(Get(policy, "required"))) }
  function Excluded(policy: Json): seq<Case> {
    var entries := Items(Get(policy, "exclusions"));
    Cases(seq(|entries|, i requires 0 <= i < |entries| => Get(entries[i], "id")))
  }
  function Prerequisites(policy: Json): seq<string> { Strs(Items(Get(policy, "prerequisites"))) }

  predicate ExclusionOk(entry: Json, profile: string) {
    Fields(entry, {"id", "reason"}) && TextOk(Get(entry, "reason")) && CaseOk(Get(entry, "id"), profile)
  }

  /** `validate_policy` */
  function PolicyError(p: Json): Option<Reject> {
    var required := Items(Get(p, "required"));
    var exclusions := Items(Get(p, "exclusions"));
    var prerequisites := Items(Get(p, "prerequisites"));
    if !Fields(p, POLICY) || Get(p, "schema_version") != Int(1) || !TextOk(Get(p, "suite")) then Some(Schema)
    else if Profile(p) != TESTER && Profile(p) != PYTEST then Some(Reject("profile", true))
    else if Get(p, "producer") != Producer(Profile(p)) then Some(Reject("producer", false))
    else if !Get(p, "required").List? || !(0 < |required| <= MAX_CASES) then Some(Reject("inventory", true))
    else if exists i :: 0 <= i < |required| && !CaseOk(required[i], Profile(p)) then Some(Schema)
    else if !Get(p, "exclusions").List? || exists i :: 0 <= i < |exclusions| && !ExclusionOk(exclusions[i], Profile(p))
      then Some(Schema)
    else if !Distinct(Required(p) + Excluded(p)) then Some(Reject("duplicate", false))
    else if |required| + |exclusions| > MAX_CASES then Some(Reject("size-limit", true))
    else if !Get(p, "prerequisites").List? || exists i :: 0 <= i < |prerequisites| && !TextOk(prerequisites[i])
      then Some(Schema)
    else if !Distinct(Prerequisites(p)) then Some(Reject("duplicate", false))
    else if !TextOk(Get(p, "prerequisite_rationale")) then Some(Schema)
    else None
  }

  // ---- the run record ----------------------------------------------------

  const RUN: set<string> :=
    {"schema_version", "run_id", "suite", "producer", "inventory_sha256", "discovered_cases", "child", "prerequisites",
      "report"}
  const CHILD: set<string> := {"argv", "cwd", "started_at", "ended_at", "termination", "exit_code"}

  function Identity(t: Tools, data: Bytes): Json { Object(map["bytes" := Int(|data|), "sha256" := Text(t.sha(data))]) }

  predicate NormalSuccess(record: Json) {
    Get(record, "termination") == Text("exited") && Get(record, "exit_code") == Int(0)
  }

  function DiscoveryError(discovered: Json, policy: Json): Option<Reject> {
    var found := Items(discovered);
    if !discovered.List? || |found| > MAX_CASES || exists i :: 0 <= i < |found| && !CaseOk(found[i], Profile(policy))
    then Some(Schema)
    else if !Distinct(Cases(found)) then Some(Reject("duplicate", false))
    else if Elements(Cases(found)) != Elements(Required(policy) + Excluded(policy))
      then Some(Reject("inventory-drift", false))
    else None
  }

  predicate IsPython(command: string) {
    command == "python" || command == "python3" ||
    (|command| > 8 && command[..8] == "python3." && forall i | 8 <= i < |command| :: '0' <= command[i] <= '9')
  }

  function UpTo(options: seq<string>): seq<string> {
    if options == [] || options[0] == "--" then [] else [options[0]] + UpTo(options[1..])
  }

  /** The explicit launcher with its option, looked for before any `--`. */
  predicate RunsXfail(t: Tools, argv: seq<string>) requires argv != [] {
    if t.baseName(argv[0]) in {"pytest", "py.test"} then "--runxfail" in UpTo(argv[1..])
    else
      && IsPython(t.baseName(argv[0])) && |argv| >= 3 && argv[1..3] == ["-m", "pytest"]
      && "--runxfail" in UpTo(argv[3..])
  }

  /** What is asked of the child before its exit. */
  function ChildShapeError(t: Tools, child: Json): Option<Reject> {
    var argv := Items(Get(child, "argv"));
    if !Fields(child, CHILD) || !Get(child, "argv").List? || argv == [] then Some(Schema)
    else if exists i :: 0 <= i < |argv| && !TextOk(argv[i]) then Some(Schema)
    else if !TextOk(Get(child, "cwd")) || Get(child, "cwd").s[0] != '/' || !TextOk(Get(child, "started_at"))
      then Some(Schema)
    else if t.instant(Get(child, "started_at").s).None? then Some(Input)
    else if !TextOk(Get(child, "ended_at")) then Some(Schema)
    else if t.instant(Get(child, "ended_at").s).None? then Some(Input)
    else
      var start, end := t.instant(Get(child, "started_at").s).value, t.instant(Get(child, "ended_at").s).value;
      if start.None? || end.None? || end.value < start.value then Some(Schema) else None
  }

  function ChildError(t: Tools, child: Json, profile: string): Option<Reject> {
    var argv := Strs(Items(Get(child, "argv")));
    if ChildShapeError(t, child).Some? then ChildShapeError(t, child)
    else if !NormalSuccess(child) then Some(Reject("execution", false))
    else if profile == PYTEST && !RunsXfail(t, argv) then Some(Reject("pytest-policy", false))
    else None
  }

  predicate ResultShapeOk(entry: Json) {
    Fields(entry, {"id", "termination", "exit_code"}) && TextOk(Get(entry, "id"))
  }

  /** The first prerequisite result that is malformed or unsuccessful. */
  function ResultsError(entries: seq<Json>): Option<Reject> {
    if entries == [] then None
    else if !ResultShapeOk(entries[0]) then Some(Schema)
    else if !NormalSuccess(entries[0]) then Some(Reject("execution", false))
    else ResultsError(entries[1..])
  }

  function ResultIds(entries: seq<Json>): seq<string> {
    seq(|entries|, i requires 0 <= i < |entries| => Str(Get(entries[i], "id")))
  }

  function PrerequisitesError(results: Json, policy: Json): Option<Reject> {
    if !results.List? then Some(Schema)
    else if ResultsError(results.items).Some? then ResultsError(results.items)
    else if !Distinct(ResultIds(results.items)) then Some(Reject("duplicate", false))
    else if Elements(ResultIds(results.items)) != Elements(Prerequisites(policy))
      then Some(Reject("prerequisites", false))
    else None
  }

  function ReportError(t: Tools, identity: Json, report: Bytes): Option<Reject> {
    if !Fields(identity, {"bytes", "sha256"}) || !HexDigest(Str(Get(identity, "sha256"))) then Some(Schema)
    else if identity != Identity(t, report) then Some(Reject("report-hash", false))
    else None
  }

  function HeaderError(t: Tools, run: Json, policy: Json, inventory: Bytes): Option<Reject> {
    if !Fields(run, RUN) || Get(run, "schema_version") != Int(1) || !TextOk(Get(run, "run_id")) then Some(Schema)
    else if Get(run, "suite") != Get(policy, "suite") || Get(run, "producer") != Get(policy, "producer")
      then Some(Reject("producer", false))
    else if !HexDigest(Str(Get(run, "inventory_sha256"))) then Some(Schema)
    else if Str(Get(run, "inventory_sha256")) != t.sha(inventory) then Some(Reject("inventory-hash", false))
    else None
  }

  /** `validate_run` */
  function RunError(t: Tools, run: Json, policy: Json, inventory: Bytes, report: Bytes): Option<Reject> {
    if HeaderError(t, run, policy, inventory).Some? then HeaderError(t, run, policy, inventory)
    else if DiscoveryError(Get(run, "discovered_cases"), policy).Some?
      then DiscoveryError(Get(run, "discovered_cases"), policy)
    else if ChildError(t, Get(run, "child"), Profile(policy)).Some?
      then ChildError(t, Get(run, "child"), Profile(policy))
    else if PrerequisitesError(Get(run, "prerequisites"), policy).Some?
      then PrerequisitesError(Get(run, "prerequisites"), policy)
    else ReportError(t, Get(run, "report"), report)
  }

  // ---- the pytest report -------------------------------------------------

  const OUTCOMES: set<string> := {"failure", "error", "skipped"}
  const SUITE: set<string> := {"name", "tests", "failures", "errors", "skipped", "time", "timestamp", "hostname"}

  function Attr(e: Element, key: string): string { if key in e.attrib then e.attrib[key] else "" }

  /** `iter`: an element of that tag, at any depth. */
  predicate Holds(e: Element, tag: string) {
    e.tag == tag || exists i :: 0 <= i < |e.children| && Holds(e.children[i], tag)
  }

  predicate PropertiesOk(e: Element) {
    forall i | 0 <= i < |e.children| :: e.children[i].tag == "property" && e.children[i].children == []
  }

  predicate DiagnosticOk(e: Element) {
    && (e.tag in OUTCOMES || e.tag in {"system-out", "system-err", "properties"})
    && !Holds(e, "testcase") && !Holds(e, "testsuite")
    && (if e.tag == "properties" then PropertiesOk(e) else e.children == [])
  }

  function OutcomesOf(children: seq<Element>): seq<string> {
    if children == [] then []
    else OutcomesOf(children[..|children| - 1]) + if children[|children| - 1].tag in OUTCOMES
      then [children[|children| - 1].tag] else []
  }

  predicate IsCase(node: Element) { node.tag == "testcase" }
  predicate IsProperties(node: Element) { node.tag == "properties" }

  /** What is wrong with one child of the suite. */
  function NodeError(t: Tools, node: Element): Option<Reject> {
    if IsProperties(node) then if PropertiesOk(node) then None else Some(Format)
    else if !IsCase(node) || node.attrib.Keys != {"classname", "name", "time"} then Some(Format)
    else if !Texty(node.attrib["classname"]) || !Texty(node.attrib["name"]) then Some(Schema)
    else if !t.finite(node.attrib["time"]) || |OutcomesOf(node.children)| > 1 then Some(Format)
    else if exists i :: 0 <= i < |node.children| && !DiagnosticOk(node.children[i]) then Some(Format)
    else None
  }

  function RowOf(node: Element): Row {
    var outcomes := OutcomesOf(node.children);
    Row([Attr(node, "classname"), Attr(node, "name")], if outcomes == [] then "pass" else outcomes[0])
  }

  function RowsOf(nodes: seq<Element>): seq<Row> {
    if nodes == [] then []
    else RowsOf(nodes[..|nodes| - 1]) + if IsProperties(nodes[|nodes| - 1]) then [] else [RowOf(nodes[|nodes| - 1])]
  }

  /** The first refusal while the nodes are listed. */
  function ListingError(t: Tools, nodes: seq<Element>): Option<Reject> {
    if nodes == [] then None
    else if ListingError(t, nodes[..|nodes| - 1]).Some? then ListingError(t, nodes[..|nodes| - 1])
    else if NodeError(t, nodes[|nodes| - 1]).Some? then NodeError(t, nodes[|nodes| - 1])
    else if !IsProperties(nodes[|nodes| - 1]) && |RowsOf(nodes)| > MAX_CASES then Some(Reject("size-limit", false))
    else None
  }

  predicate Digits(s: string) { s != "" && Digital(s) }

  function ValueOf(s: string): nat requires Digital(s) {
    if s == "" then 0 else 10 * ValueOf(s[..|s| - 1]) + (s[|s| - 1] as int - '0' as int)
  }

  function Decimal(n: nat): string {
    (if n < 10 then "" else Decimal(n / 10)) + [('0' as int + n % 10) as char]
  }

  predicate Digital(s: string) { forall i | 0 <= i < |s| :: '0' <= s[i] <= '9' }

  lemma ValueSnoc(s: string, d: nat)
    requires Digital(s) && d < 10
    ensures Digital(s + [('0' as int + d) as char])
    ensures ValueOf(s + [('0' as int + d) as char]) == 10 * ValueOf(s) + d
  {
    var longer := s + [('0' as int + d) as char];
    assert longer[..|longer| - 1] == s;
  }

  lemma {:induction false} DecimalRoundTrip(n: nat)
    ensures Digits(Decimal(n)) && ValueOf(Decimal(n)) == n
  {
    hide ValueOf;
    if n >= 10 {
      DecimalRoundTrip(n / 10);
      ValueSnoc(Decimal(n / 10), n % 10);
    } else {
      ValueSnoc("", n);
      NoDigits();
    }
  }

  lemma NoDigits()
    ensures ValueOf("") == 0
  {}

  function Tally(rows: seq<Row>, outcome: string): nat {
    if rows == [] then 0 else Tally(rows[..|rows| - 1], outcome) + if rows[|rows| - 1].outcome == outcome then 1 else 0
  }

  predicate CountIs(suite: Element, key: string, n: nat) { Digits(Attr(suite, key)) && ValueOf(Attr(suite, key)) == n }

  predicate TotalsOk(suite: Element, rows: seq<Row>) {
    && CountIs(suite, "tests", |rows|) && CountIs(suite, "failures", Tally(rows, "failure"))
    && CountIs(suite, "errors", Tally(rows, "error")) && CountIs(suite, "skipped", Tally(rows, "skipped"))
  }

  predicate WrapperOk(root: Element) {
    && root.attrib == map["name" := "pytest tests"] && root.tag == "testsuites"
    && |root.children| == 1 && root.children[0].tag == "testsuite" && root.children[0].attrib.Keys <= SUITE
  }

  /** `junit_report`, once the document is parsed. */
  function SuiteRows(t: Tools, root: Element): Rows {
    if !WrapperOk(root) then Refused(Format)
    else
      var suite := root.children[0];
      if ListingError(t, suite.children).Some? then Refused(ListingError(t, suite.children).value)
      else if !TotalsOk(suite, RowsOf(suite.children)) then Refused(Reject("report-counts", false))
      else if !t.finite(Attr(suite, "time")) then Refused(Format)
      else Listed(RowsOf(suite.children))
  }

  lemma {:induction false} ListingOk(t: Tools, nodes: seq<Element>)
    ensures ListingError(t, nodes).None? <==> |RowsOf(nodes)| <= MAX_CASES && forall i | 0 <= i < |nodes| ::
      NodeError(t, nodes[i]).None?
  {
    hide NodeError, RowOf, IsProperties;
    if nodes != [] {
      var front, last := nodes[..|nodes| - 1], nodes[|nodes| - 1];
      ListingOk(t, front);
      assert |RowsOf(nodes)| == |RowsOf(front)| + if IsProperties(last) then 0 else 1;
      assert (forall i | 0 <= i < |nodes| :: NodeError(t, nodes[i]).None?) <==>
             (forall i | 0 <= i < |front| :: NodeError(t, front[i]).None?) && NodeError(t, last).None?;
    }
  }

  /** The first refusal is the only one reported. */
  lemma {:induction false} RefusalStays(t: Tools, nodes: seq<Element>, i: nat)
    requires i <= |nodes| && ListingError(t, nodes[..i]).Some?
    ensures ListingError(t, nodes) == ListingError(t, nodes[..i])
    decreases |nodes|
  {
    if i == |nodes| {
      assert nodes[..i] == nodes;
    } else {
      assert nodes[..|nodes| - 1][..i] == nodes[..i];
      RefusalStays(t, nodes[..|nodes| - 1], i);
    }
  }

  function TooMany(nodes: seq<Element>, i: nat): Option<Reject> requires i < |nodes| {
    if !IsProperties(nodes[i]) && |RowsOf(nodes[..i + 1])| > MAX_CASES then Some(Reject("size-limit", false)) else None
  }

  lemma Unfold(t: Tools, nodes: seq<Element>, i: nat)
    requires i < |nodes| && ListingError(t, nodes[..i]).None?
    ensures RowsOf(nodes[..i + 1]) == RowsOf(nodes[..i]) + if IsProperties(nodes[i]) then [] else [RowOf(nodes[i])]
    ensures NodeError(t, nodes[i]).Some? ==> ListingError(t, nodes) == NodeError(t, nodes[i])
    ensures NodeError(t, nodes[i]).None? ==> ListingError(t, nodes[..i + 1]) == TooMany(nodes, i)
    ensures ListingError(t, nodes[..i + 1]).Some? ==> ListingError(t, nodes) == ListingError(t, nodes[..i + 1])
  {
    hide NodeError, RowOf;
    var known := nodes[..i + 1];
    assert known[..|known| - 1] == nodes[..i] && known[|known| - 1] == nodes[i];
    if ListingError(t, known).Some? {
      RefusalStays(t, nodes, i + 1);
    }
  }

  method ListRows(t: Tools, nodes: seq<Element>) returns (result: Rows)
    ensures result ==
      if ListingError(t, nodes).Some? then Refused(ListingError(t, nodes).value) else Listed(RowsOf(nodes))
  {
    hide NodeError, RowOf, ListingError, RowsOf;
    var rows: seq<Row> := [];
    assert nodes[..0] == [];
    Nothing(t);
    for i := 0 to |nodes|
      invariant rows == RowsOf(nodes[..i]) && ListingError(t, nodes[..i]).None?
    {
      var node := nodes[i];
      Unfold(t, nodes, i);
      if NodeError(t, node).Some? {
        return Refused(NodeError(t, node).value);
      }
      if !IsProperties(node) {
        rows := rows + [RowOf(node)];
        if |rows| > MAX_CASES {
          return Refused(Reject("size-limit", false));
        }
      }
    }
    assert nodes[..|nodes|] == nodes;
    return Listed(rows);
  }

  lemma Nothing(t: Tools)
    ensures RowsOf([]) == [] && ListingError(t, []).None?
  {}

  /** `junit_report` */
  method JunitReport(t: Tools, raw: Bytes) returns (result: Rows)
    ensures result == ReportRows(t, PYTEST, raw)
  {
    var parsed := t.parse(raw);
    if parsed.Unparsable? {
      return Refused(parsed.reason);
    }
    var root := parsed.root;
    if !WrapperOk(root) {
      return Refused(Format);
    }
    var suite := root.children[0];
    result := ListRows(t, suite.children);
    if result.Listed? {
      if !TotalsOk(suite, result.rows) {
        return Refused(Reject("report-counts", false));
      }
      if !t.finite(Attr(suite, "time")) {
        return Refused(Format);
      }
    }
  }

  function ReportRows(t: Tools, profile: string, raw: Bytes): Rows {
    if profile == TESTER then t.tester(raw)
    else
      var parsed := t.parse(raw);
      if parsed.Unparsable? then Refused(parsed.reason) else SuiteRows(t, parsed.root)
  }

  // ---- the verdict -------------------------------------------------------

  /** The three input files and the digest the caller trusts. */
  datatype Evidence = Evidence(inventory: Bytes, anchor: string, record: Bytes, report: Bytes)

  datatype Verdict = Verdict(status: nat, accepted: bool, errors: seq<string>)

  function Ids(rows: seq<Row>): seq<Case> { seq(|rows|, i requires 0 <= i < |rows| => rows[i].id) }

  /** Which requirement fails on the listed cases. */
  function CoverageError(rows: seq<Row>, required: seq<Case>): Option<Reject> {
    if rows == [] then Some(Reject("zero-execution", false))
    else if !Distinct(Ids(rows)) then Some(Reject("duplicate", false))
    else if Elements(required) - Elements(Ids(rows)) != {} || Elements(Ids(rows)) - Elements(required) != {}
      then Some(Reject("case-coverage", false))
    else if exists i :: 0 <= i < |rows| && rows[i].outcome != "pass" then Some(Reject("case-outcome", false))
    else None
  }

  /** The first failed requirement of `main`, in program order. */
  function FirstError(t: Tools, e: Evidence): Option<Reject> {
    if |e.inventory| > MAX_BYTES then Some(Reject("size-limit", true))
    else if !HexDigest(e.anchor) then Some(Schema)
    else if t.sha(e.inventory) != e.anchor then Some(Reject("inventory-anchor", false))
    else if |e.record| > MAX_BYTES || |e.report| > MAX_BYTES then Some(Reject("size-limit", true))
    else if t.load(e.inventory).Unloadable? then Some(t.load(e.inventory).reason)
    else if t.load(e.record).Unloadable? then Some(t.load(e.record).reason)
    else ContentError(t, t.load(e.inventory).json, t.load(e.record).json, e.inventory, e.report)
  }

  function ContentError(t: Tools, policy: Json, run: Json, inventory: Bytes, report: Bytes): Option<Reject> {
    if PolicyError(policy).Some? then PolicyError(policy)
    else if RunError(t, run, policy, inventory, report).Some? then RunError(t, run, policy, inventory, report)
    else
      var listed := ReportRows(t, Profile(policy), report);
      if listed.Refused? then Some(listed.reason) else CoverageError(listed.rows, Required(policy))
  }

  function Account(t: Tools, e: Evidence): (v: Verdict)
    ensures v.accepted <==> v.status == 0
    ensures v.accepted <==> v.errors == []
    ensures |v.errors| <= 1 && v.status <= 2
  {
    match FirstError(t, e)
    case None => Verdict(0, true, [])
    case Some(reason) => Verdict(if reason.invalid then 2 else 1, false, [reason.code])
  }

  // ---- what acceptance means ---------------------------------------------

  lemma {:induction false} DistinctCounts<T>(s: seq<T>)
    ensures Distinct(s) <==> forall x | x in s :: multiset(s)[x] == 1
  {
    if s != [] {
      var front, last := s[..|s| - 1], s[|s| - 1];
      DistinctCounts(front);
      assert s == front + [last];
      assert forall x :: multiset(s)[x] == multiset(front)[x] + if x == last then 1 else 0;
      if last in front {
        var i :| 0 <= i < |front| && front[i] == last;
        assert s[i] == s[|s| - 1];
        assert multiset(s)[last] >= 2;
      } else {
        assert Distinct(s) <==> Distinct(front);
        assert multiset(front)[last] == 0;
        assert forall x | x in s :: x == last || x in front;
        assert forall x | x in front :: x in s;
      }
    }
  }

  /** Distinct lists with the same elements are permutations of each other, and conversely. */
  lemma SameMultiset<T>(a: seq<T>, b: seq<T>)
    requires Distinct(b)
    ensures multiset(a) == multiset(b) <==> Distinct(a) && Elements(a) == Elements(b)
  {
    DistinctCounts(a);
    DistinctCounts(b);
    if Distinct(a) && Elements(a) == Elements(b) {
      forall x ensures multiset(a)[x] == multiset(b)[x] {
        assert x in a <==> x in Elements(a);
        assert x in b <==> x in Elements(b);
        assert x in a <==> x in multiset(a);
        assert x in b <==> x in multiset(b);
      }
    }
    if multiset(a) == multiset(b) {
      forall x ensures x in a <==> x in b {
        assert x in a <==> x in multiset(a);
        assert x in b <==> x in multiset(b);
      }
      assert Elements(a) == Elements(b);
    }
  }

  /** Every required case is listed exactly once, nothing else is, and each passed. */
  ghost predicate AllPassedOnce(rows: seq<Row>, required: seq<Case>) {
    multiset(Ids(rows)) == multiset(required) && forall i | 0 <= i < |rows| :: rows[i].outcome == "pass"
  }

  lemma CoverageMeans(rows: seq<Row>, required: seq<Case>)
    requires Distinct(required) && required != []
    ensures CoverageError(rows, required).None? <==> AllPassedOnce(rows, required)
  {
    SameMultiset(Ids(rows), required);
    if rows == [] {
      assert Ids(rows) == [];
      assert required[0] in multiset(required);
    }
    assert Elements(required) - Elements(Ids(rows)) == {} && Elements(Ids(rows)) - Elements(required) == {} <==>
      Elements(Ids(rows)) == Elements(required);
  }

  lemma PolicyGivesDistinct(policy: Json)
    requires PolicyError(policy).None?
    ensures Distinct(Required(policy) + Excluded(policy)) && Distinct(Required(policy)) && Required(policy) != []
  {
    var all := Required(policy) + Excluded(policy);
    forall i, j | 0 <= i < j < |Required(policy)| ensures Required(policy)[i] != Required(policy)[j] {
      assert all[i] != all[j];
    }
  }

  /** The record is for this policy and was made with this inventory. */
  ghost predicate HeaderSound(t: Tools, run: Json, policy: Json, inventory: Bytes) {
    && Fields(run, RUN) && Get(run, "schema_version") == Int(1) && TextOk(Get(run, "run_id"))
    && Get(run, "suite") == Get(policy, "suite") && Get(run, "producer") == Get(policy, "producer")
    && Get(run, "inventory_sha256") == Text(t.sha(inventory))
  }

  lemma HeaderMeans(t: Tools, run: Json, policy: Json, inventory: Bytes)
    requires Hashing(t)
    ensures HeaderError(t, run, policy, inventory).None? <==> HeaderSound(t, run, policy, inventory)
  {
    hide TextOk, Fields;
    assert HexDigest(t.sha(inventory));
  }

  /** A moment that the record spells with a zone. */
  ghost predicate Moment(t: Tools, j: Json, at: int) {
    TextOk(j) && t.instant(j.s) == Some(Some(at))
  }

  /** A command, an absolute directory, and an end no earlier than the start. */
  ghost predicate ChildSound(t: Tools, child: Json) {
    && Fields(child, CHILD) && Get(child, "argv").List? && Items(Get(child, "argv")) != []
    && (forall i | 0 <= i < |Items(Get(child, "argv"))| :: TextOk(Items(Get(child, "argv"))[i]))
    && TextOk(Get(child, "cwd")) && Get(child, "cwd").s[0] == '/'
    && exists start, end ::
         Moment(t, Get(child, "started_at"), start) && Moment(t, Get(child, "ended_at"), end) && start <= end
  }

  lemma ChildMeans(t: Tools, child: Json)
    ensures ChildShapeError(t, child).None? <==> ChildSound(t, child)
  {
    hide Fields;
    var began, over := Get(child, "started_at"), Get(child, "ended_at");
    if ChildShapeError(t, child).None? {
      assert Moment(t, began, t.instant(began.s).value.value) && Moment(t, over, t.instant(over.s).value.value);
    }
  }

  /** The run record matches the policy: the same universe, an orderly child, every prerequisite once. */
  ghost predicate RunVouched(t: Tools, run: Json, policy: Json, inventory: Bytes, report: Bytes) {
    var found := Items(Get(run, "discovered_cases"));
    var results := Items(Get(run, "prerequisites"));
    && HeaderSound(t, run, policy, inventory)
    && Get(run, "discovered_cases").List? && (forall i | 0 <= i < |found| :: CaseOk(found[i], Profile(policy)))
    && multiset(Cases(found)) == multiset(Required(policy) + Excluded(policy))
    && ChildSound(t, Get(run, "child")) && NormalSuccess(Get(run, "child"))
    && (Profile(policy) == PYTEST ==> RunsXfail(t, Strs(Items(Get(Get(run, "child"), "argv")))))
    && Get(run, "prerequisites").List? && (forall i | 0 <= i < |results| ::
      ResultShapeOk(results[i]) && NormalSuccess(results[i]))
    && multiset(ResultIds(results)) == multiset(Prerequisites(policy))
    && Get(run, "report") == Identity(t, report)
  }

  lemma {:induction false} ResultsOk(entries: seq<Json>)
    ensures ResultsError(entries).None? <==> forall i | 0 <= i < |entries| ::
      ResultShapeOk(entries[i]) && NormalSuccess(entries[i])
  {
    if entries != [] {
      ResultsOk(entries[1..]);
      assert entries == [entries[0]] + entries[1..];
      forall i | 0 <= i < |entries| - 1 ensures entries[1..][i] == entries[i + 1] {}
      if ResultsError(entries).None? {
        forall i | 0 <= i < |entries| ensures ResultShapeOk(entries[i]) && NormalSuccess(entries[i]) {
          if i > 0 {
            assert entries[1..][i - 1] == entries[i];
          }
        }
      }
    }
  }

  lemma DiscoveryMeans(discovered: Json, policy: Json)
    requires PolicyError(policy).None?
    ensures DiscoveryError(discovered, policy).None? <==>
      && discovered.List? && (forall i | 0 <= i < |discovered.items| :: CaseOk(discovered.items[i], Profile(policy)))
      && multiset(Cases(discovered.items)) == multiset(Required(policy) + Excluded(policy))
  {
    hide CaseOk;
    PolicyGivesDistinct(policy);
    var found, universe := Cases(Items(discovered)), Required(policy) + Excluded(policy);
    SameMultiset(found, universe);
    if multiset(found) == multiset(universe) {
      assert |found| == |multiset(found)| == |multiset(universe)| == |universe|;
    }
  }

  lemma PolicyGivesPrerequisites(policy: Json)
    requires PolicyError(policy).None?
    ensures Distinct(Prerequisites(policy))
  {}

  lemma PrerequisitesMean(results: Json, policy: Json)
    requires PolicyError(policy).None?
    ensures PrerequisitesError(results, policy).None? <==>
      && results.List? && (forall i | 0 <= i < |results.items| ::
        ResultShapeOk(results.items[i]) && NormalSuccess(results.items[i]))
      && multiset(ResultIds(results.items)) == multiset(Prerequisites(policy))
  {
    PolicyGivesPrerequisites(policy);
    hide PolicyError, ResultShapeOk, NormalSuccess, ResultsError, Distinct;
    if results.List? {
      ResultsOk(results.items);
      SameMultiset(ResultIds(results.items), Prerequisites(policy));
    }
  }

  /** The digest function answers in lower-case hexadecimal. */
  ghost predicate Hashing(t: Tools) { forall b :: HexDigest(t.sha(b)) }

  lemma RunMeans(t: Tools, run: Json, policy: Json, inventory: Bytes, report: Bytes)
    requires Hashing(t) && PolicyError(policy).None?
    ensures RunError(t, run, policy, inventory, report).None? <==> RunVouched(t, run, policy, inventory, report)
  {
    hide PolicyError, HeaderError, HeaderSound, ChildShapeError, ChildSound, RunsXfail;
    hide DiscoveryError, PrerequisitesError;
    HeaderMeans(t, run, policy, inventory);
    ChildMeans(t, Get(run, "child"));
    DiscoveryMeans(Get(run, "discovered_cases"), policy);
    PrerequisitesMean(Get(run, "prerequisites"), policy);
    assert HexDigest(t.sha(report));
  }

  // ---- the report, element by element -------------------------------------

  predicate IsOutcome(e: Element) { e.tag == "failure" || e.tag == "error" || e.tag == "skipped" }

  /** A property list, or a named and timed case with leaves under it and at most one outcome. */
  ghost predicate NodeSound(t: Tools, node: Element) {
    if node.tag == "properties" then
      forall c | c in node.children :: c.tag == "property" && c.children == []
    else
      && node.tag == "testcase" && node.attrib.Keys == {"classname", "name", "time"}
      && Texty(node.attrib["classname"]) && Texty(node.attrib["name"]) && t.finite(node.attrib["time"])
      && (forall i | 0 <= i < |node.children| :: DiagnosticOk(node.children[i]))
      && (forall i, j | 0 <= i < j < |node.children| :: !(IsOutcome(node.children[i]) && IsOutcome(node.children[j])))
  }

  /** The row names the case and its outcome: the one reported, or a pass when none is. */
  ghost predicate RowFits(node: Element, row: Row) {
    && row.id == [Attr(node, "classname"), Attr(node, "name")]
    && (forall i | 0 <= i < |node.children| && IsOutcome(node.children[i]) :: row.outcome == node.children[i].tag)
    && ((forall i | 0 <= i < |node.children| :: !IsOutcome(node.children[i])) ==> row.outcome == "pass")
  }

  /** How many of the nodes are cases. */
  function Places(nodes: seq<Element>): nat {
    if nodes == [] then 0 else Places(nodes[..|nodes| - 1]) + if IsProperties(nodes[|nodes| - 1]) then 0 else 1
  }

  /** One row per case, in the order of the cases. */
  ghost predicate Transcribes(nodes: seq<Element>, rows: seq<Row>) {
    && |rows| == Places(nodes)
    && forall i | 0 <= i < |nodes| && !IsProperties(nodes[i]) :: FitsAt(nodes, i, rows)
  }

  ghost predicate FitsAt(nodes: seq<Element>, i: nat, rows: seq<Row>) requires i < |nodes| {
    Places(nodes[..i]) < |rows| && RowFits(nodes[i], rows[Places(nodes[..i])])
  }

  /** The positions of the rows with that outcome. */
  function At(rows: seq<Row>, outcome: string): set<nat> {
    set i: nat | i < |rows| && rows[i].outcome == outcome
  }

  /** An attribute that spells a number in decimal digits. */
  predicate Spells(e: Element, key: string, n: nat) {
    key in e.attrib && Digits(e.attrib[key]) && ValueOf(e.attrib[key]) == n
  }

  /** The report lists exactly these rows, with honest totals. */
  ghost predicate SuiteLists(t: Tools, root: Element, rows: seq<Row>) {
    && |root.children| == 1
    && root == Element("testsuites", map["name" := "pytest tests"], [root.children[0]])
    && var suite := root.children[0];
    && suite.tag == "testsuite" && (forall key | key in suite.attrib :: key in SUITE)
    && (forall i | 0 <= i < |suite.children| :: NodeSound(t, suite.children[i]))
    && Transcribes(suite.children, rows) && |rows| <= MAX_CASES
    && Spells(suite, "tests", |rows|) && Spells(suite, "failures", |At(rows, "failure")|)
    && Spells(suite, "errors", |At(rows, "error")|) && Spells(suite, "skipped", |At(rows, "skipped")|)
    && t.finite(Attr(suite, "time"))
  }

  ghost predicate ReportLists(t: Tools, profile: string, raw: Bytes, rows: seq<Row>) {
    if profile == TESTER then t.tester(raw) == Listed(rows)
    else t.parse(raw).Tree? && SuiteLists(t, t.parse(raw).root, rows)
  }

  lemma {:induction false} OutcomesMean(children: seq<Element>)
    ensures |OutcomesOf(children)| <= 1 <==>
      forall i, j | 0 <= i < j < |children| :: !(IsOutcome(children[i]) && IsOutcome(children[j]))
    ensures OutcomesOf(children) == [] <==> forall i | 0 <= i < |children| :: !IsOutcome(children[i])
    ensures |OutcomesOf(children)| == 1 ==>
      forall i | 0 <= i < |children| && IsOutcome(children[i]) :: OutcomesOf(children) == [children[i].tag]
  {
    if children != [] {
      var n := |children| - 1;
      OutcomesMean(children[..n]);
      assert IsOutcome(children[n]) <==> children[n].tag in OUTCOMES;
      assert forall i | 0 <= i < n :: children[..n][i] == children[i];
      if IsOutcome(children[n]) && OutcomesOf(children[..n]) != [] {
        var i :| 0 <= i < n && IsOutcome(children[..n][i]);
        assert IsOutcome(children[i]) && IsOutcome(children[n]);
      }
    }
  }

  lemma NodeMeans(t: Tools, node: Element)
    ensures NodeError(t, node).None? <==> NodeSound(t, node)
  {
    hide DiagnosticOk, OutcomesOf, Texty;
    OutcomesMean(node.children);
    assert "properties"[0] != "testcase"[0];
    assert (forall c | c in node.children :: c.tag == "property" && c.children == []) <==> PropertiesOk(node);
  }

  lemma RowMeans(t: Tools, node: Element, row: Row)
    requires NodeError(t, node).None? && !IsProperties(node)
    ensures RowFits(node, row) <==> row == RowOf(node)
  {
    hide DiagnosticOk, OutcomesOf, Texty;
    OutcomesMean(node.children);
  }

  lemma PlacesBefore(nodes: seq<Element>, i: nat)
    requires i < |nodes| && !IsProperties(nodes[i])
    ensures Places(nodes[..i]) < Places(nodes)
    decreases |nodes|
  {
    if i < |nodes| - 1 {
      PlacesBefore(nodes[..|nodes| - 1], i);
      assert nodes[..|nodes| - 1][..i] == nodes[..i];
    }
  }

  lemma FitsInFront(nodes: seq<Element>, i: nat, rows: seq<Row>, fewer: seq<Row>)
    requires i < |nodes| - 1 && !IsProperties(nodes[i])
    requires Places(nodes[..|nodes| - 1]) <= |fewer| && fewer <= rows
    ensures FitsAt(nodes, i, rows) <==> FitsAt(nodes[..|nodes| - 1], i, fewer)
  {
    hide Places, RowFits;
    assert nodes[..|nodes| - 1][..i] == nodes[..i];
    PlacesBefore(nodes[..|nodes| - 1], i);
  }

  lemma TranscribesSnoc(nodes: seq<Element>, rows: seq<Row>)
    requires nodes != []
    ensures var front, last := nodes[..|nodes| - 1], nodes[|nodes| - 1];
      Transcribes(nodes, rows) <==>
        if IsProperties(last) then Transcribes(front, rows)
        else rows != [] && Transcribes(front, rows[..|rows| - 1]) && RowFits(last, rows[|rows| - 1])
  {
    hide FitsAt, RowFits, IsProperties;
    var n := |nodes| - 1;
    var front, last := nodes[..n], nodes[n];
    var fewer := if IsProperties(last) || rows == [] then rows else rows[..|rows| - 1];
    if |rows| == Places(nodes) {
      forall i | 0 <= i < n && !IsProperties(nodes[i]) ensures FitsAt(nodes, i, rows) <==> FitsAt(front, i, fewer) {
        FitsInFront(nodes, i, rows, fewer);
      }
      FitsLast(nodes, rows);
    }
  }

  lemma FitsLast(nodes: seq<Element>, rows: seq<Row>)
    requires nodes != [] && |rows| == Places(nodes)
    ensures !IsProperties(nodes[|nodes| - 1]) ==>
      rows != [] && (FitsAt(nodes, |nodes| - 1, rows) <==> RowFits(nodes[|nodes| - 1], rows[|rows| - 1]))
  {
    hide RowFits, IsProperties;
  }

  lemma {:induction false} TranscribesMeans(t: Tools, nodes: seq<Element>, rows: seq<Row>)
    requires forall i | 0 <= i < |nodes| :: NodeError(t, nodes[i]).None?
    ensures Transcribes(nodes, rows) <==> rows == RowsOf(nodes)
  {
    hide NodeError, RowOf, RowFits, Transcribes, IsProperties;
    if nodes == [] {
      NothingTranscribed(rows);
    } else {
      var n := |nodes| - 1;
      TranscribesSnoc(nodes, rows);
      if IsProperties(nodes[n]) {
        TranscribesMeans(t, nodes[..n], rows);
      } else if rows != [] {
        TranscribesMeans(t, nodes[..n], rows[..|rows| - 1]);
        RowMeans(t, nodes[n], rows[|rows| - 1]);
        assert rows == rows[..|rows| - 1] + [rows[|rows| - 1]];
      }
    }
  }

  lemma NothingTranscribed(rows: seq<Row>)
    ensures Transcribes([], rows) <==> rows == []
  {
  }

  lemma {:induction false} TallyMeans(rows: seq<Row>, outcome: string)
    ensures |At(rows, outcome)| == Tally(rows, outcome)
  {
    if rows == [] {
      assert At(rows, outcome) == {};
    } else {
      var n := |rows| - 1;
      TallyMeans(rows[..n], outcome);
      assert At(rows, outcome) == At(rows[..n], outcome) + if rows[n].outcome == outcome then {n} else {};
    }
  }

  lemma TotalsMean(suite: Element, rows: seq<Row>)
    ensures TotalsOk(suite, rows) <==>
      && Spells(suite, "tests", |rows|) && Spells(suite, "failures", |At(rows, "failure")|)
      && Spells(suite, "errors", |At(rows, "error")|) && Spells(suite, "skipped", |At(rows, "skipped")|)
  {
    hide ValueOf, Tally, At;
    TallyMeans(rows, "failure");
    TallyMeans(rows, "error");
    TallyMeans(rows, "skipped");
  }

  lemma WrapperMeans(root: Element)
    ensures WrapperOk(root) <==>
      && |root.children| == 1
      && root == Element("testsuites", map["name" := "pytest tests"], [root.children[0]])
      && root.children[0].tag == "testsuite" && (forall key | key in root.children[0].attrib :: key in SUITE)
  {
    if |root.children| == 1 {
      assert root.children == [root.children[0]];
    }
  }

  lemma SuiteMeans(t: Tools, root: Element, rows: seq<Row>)
    ensures SuiteLists(t, root, rows) <==> SuiteRows(t, root) == Listed(rows)
  {
    hide NodeError, NodeSound, RowsOf, ListingError, TotalsOk, Transcribes, WrapperOk, Spells, At;
    WrapperMeans(root);
    if WrapperOk(root) {
      var suite := root.children[0];
      forall i | 0 <= i < |suite.children|
        ensures NodeError(t, suite.children[i]).None? <==> NodeSound(t, suite.children[i])
      {
        NodeMeans(t, suite.children[i]);
      }
      ListingOk(t, suite.children);
      TotalsMean(suite, rows);
      if forall i | 0 <= i < |suite.children| :: NodeError(t, suite.children[i]).None? {
        TranscribesMeans(t, suite.children, rows);
      }
    }
  }

  /** A report is listed, and listed as these rows, exactly when its elements say so. */
  lemma ReportMeans(t: Tools, profile: string, raw: Bytes, rows: seq<Row>)
    ensures ReportLists(t, profile, raw, rows) <==> ReportRows(t, profile, raw) == Listed(rows)
  {
    hide SuiteLists, SuiteRows;
    if profile != TESTER && t.parse(raw).Tree? {
      SuiteMeans(t, t.parse(raw).root, rows);
    }
  }

  /** What a reviewed policy must be. */
  ghost predicate PolicySound(p: Json) {
    var required, exclusions := Items(Get(p, "required")), Items(Get(p, "exclusions"));
    var prerequisites := Items(Get(p, "prerequisites"));
    && Fields(p, POLICY) && Get(p, "schema_version") == Int(1)
    && TextOk(Get(p, "suite")) && TextOk(Get(p, "prerequisite_rationale"))
    && (Profile(p) == TESTER || Profile(p) == PYTEST) && Get(p, "producer") == Producer(Profile(p))
    && Get(p, "required").List? && Get(p, "exclusions").List? && Get(p, "prerequisites").List?
    && required != [] && |required| + |exclusions| <= MAX_CASES
    && (forall i | 0 <= i < |required| :: CaseOk(required[i], Profile(p)))
    && (forall i | 0 <= i < |exclusions| :: ExclusionOk(exclusions[i], Profile(p)))
    && (forall i | 0 <= i < |prerequisites| :: TextOk(prerequisites[i]))
    && Distinct(Required(p) + Excluded(p)) && Distinct(Prerequisites(p))
  }

  lemma PolicyMeans(p: Json)
    ensures PolicyError(p).None? <==> PolicySound(p)
  {
    hide CaseOk, ExclusionOk, TextOk, Distinct, Required, Excluded, Prerequisites, Producer, Fields, Profile;
  }

  /** All three files are within bounds and agree, and the report lists one pass of each required case. */
  ghost predicate Vouched(t: Tools, e: Evidence) {
    && |e.inventory| <= MAX_BYTES && |e.record| <= MAX_BYTES && |e.report| <= MAX_BYTES
    && e.anchor == t.sha(e.inventory)
    && t.load(e.inventory).Value? && t.load(e.record).Value?
    && var policy := t.load(e.inventory).json;
    && PolicySound(policy)
    && RunVouched(t, t.load(e.record).json, policy, e.inventory, e.report)
    && exists rows :: ReportLists(t, Profile(policy), e.report, rows) && AllPassedOnce(rows, Required(policy))
  }

  /** Evidence is accepted exactly when it vouches for one pass of each required case. */
  lemma AcceptedIffVouched(t: Tools, e: Evidence)
    requires Hashing(t)
    ensures Account(t, e).accepted <==> Vouched(t, e)
  {
    hide PolicyError, PolicySound, RunError, RunVouched, ReportRows, ReportLists, CoverageError, AllPassedOnce;
    assert HexDigest(t.sha(e.inventory));
    if t.load(e.inventory).Value? && t.load(e.record).Value? {
      var policy, run := t.load(e.inventory).json, t.load(e.record).json;
      PolicyMeans(policy);
      if PolicyError(policy).None? {
        RunMeans(t, run, policy, e.inventory, e.report);
        PolicyGivesDistinct(policy);
        forall rows ensures ReportLists(t, Profile(policy), e.report, rows) <==>
          ReportRows(t, Profile(policy), e.report) == Listed(rows)
        {
          ReportMeans(t, Profile(policy), e.report, rows);
        }
        if ReportRows(t, Profile(policy), e.report).Listed? {
          var rows := ReportRows(t, Profile(policy), e.report).rows;
          assert ReportLists(t, Profile(policy), e.report, rows);
          CoverageMeans(rows, Required(policy));
        }
      }
    }
  }

  // ---- the mutation controls ---------------------------------------------

  datatype Control = Missing | Skipped | ChildExit | CollectionShrink

  function Expected(control: Control): string {
    match control
    case Missing => "case-coverage"
    case Skipped => "case-outcome"
    case ChildExit => "execution"
    case CollectionShrink => "inventory-drift"
  }

  function With(j: Json, key: string, value: Json): Json { if j.Object? then Object(j.fields[key := value]) else j }

  function FirstCase(nodes: seq<Element>): (k: nat)
    ensures k <= |nodes| && forall i | 0 <= i < k :: !IsCase(nodes[i])
    ensures k < |nodes| ==> IsCase(nodes[k])
  {
    if nodes == [] || IsCase(nodes[0]) then 0 else 1 + FirstCase(nodes[1..])
  }

  function CountCases(nodes: seq<Element>): nat {
    if nodes == [] then 0 else CountCases(nodes[..|nodes| - 1]) + if IsCase(nodes[|nodes| - 1]) then 1 else 0
  }

  function DropCase(suite: Element): Element requires FirstCase(suite.children) < |suite.children| {
    var k := FirstCase(suite.children);
    var left := suite.children[..k] + suite.children[k + 1..];
    suite.(children := left, attrib := suite.attrib["tests" := Decimal(CountCases(left))])
  }

  const SKIP := Element("skipped", map["message" := "control"], [])

  function SkipCase(suite: Element): Element requires FirstCase(suite.children) < |suite.children| {
    var k := FirstCase(suite.children);
    var case_ := suite.children[k];
    suite.(children := suite.children[k := case_.(children := case_.children + [SKIP])],
      attrib := suite.attrib["skipped" := "1"])
  }

  predicate Editable(t: Tools, e: Evidence) {
    && t.load(e.record).Value? && t.parse(e.report).Tree?
    && |t.parse(e.report).root.children| > 0
    && FirstCase(t.parse(e.report).root.children[0].children) < |t.parse(e.report).root.children[0].children|
  }

  predicate EditsReport(control: Control) { control == Missing || control == Skipped }

  /** The report that a control writes, if it writes one. */
  function EditedRoot(t: Tools, e: Evidence, control: Control): Element requires Editable(t, e) {
    var root := t.parse(e.report).root;
    var suite := root.children[0];
    root.(children := root.children[0 := if control == Missing then DropCase(suite) else SkipCase(suite)])
  }

  /** The run record that a control writes. */
  function EditedRun(t: Tools, e: Evidence, control: Control): Json requires Editable(t, e) {
    var run := t.load(e.record).json;
    if EditsReport(control) then With(run, "report", Identity(t, t.render(EditedRoot(t, e, control))))
    else if control == ChildExit then With(run, "child", With(Get(run, "child"), "exit_code", Int(1)))
    else
      var found := Items(Get(run, "discovered_cases"));
      With(run, "discovered_cases", List(if found == [] then [] else found[..|found| - 1]))
  }

  /** The evidence that a control hands to the accountant. */
  function Mutated(t: Tools, e: Evidence, control: Control): Evidence requires Editable(t, e) {
    var report := if EditsReport(control) then t.render(EditedRoot(t, e, control)) else e.report;
    e.(record := t.dump(EditedRun(t, e, control)), report := report)
  }

  /** What the control writes is read back as it was meant. */
  predicate ReadsBack(t: Tools, e: Evidence, control: Control) requires Editable(t, e) {
    && t.load(t.dump(EditedRun(t, e, control))) == Value(EditedRun(t, e, control))
    && (EditsReport(control) ==> t.parse(t.render(EditedRoot(t, e, control))) == Tree(EditedRoot(t, e, control)))
  }

  predicate Fits(e: Evidence) { |e.record| <= MAX_BYTES && |e.report| <= MAX_BYTES }

  lemma RowsSnoc(nodes: seq<Element>, node: Element)
    ensures RowsOf(nodes + [node]) == RowsOf(nodes) + if IsProperties(node) then [] else [RowOf(node)]
  {
    hide RowOf, IsProperties;
    assert (nodes + [node])[..|nodes|] == nodes;
  }

  lemma {:induction false} RowsConcat(a: seq<Element>, b: seq<Element>)
    ensures RowsOf(a + b) == RowsOf(a) + RowsOf(b)
  {
    hide RowOf, RowsOf, IsProperties;
    if b == [] {
      assert a + b == a;
      NoRows();
    } else {
      var front, last := b[..|b| - 1], b[|b| - 1];
      RowsConcat(a, front);
      assert a + b == (a + front) + [last] && b == front + [last];
      RowsSnoc(a + front, last);
      RowsSnoc(front, last);
    }
  }

  lemma NoRows()
    ensures RowsOf([]) == []
  {}

  lemma {:induction false} OnlyProperties(nodes: seq<Element>)
    requires forall i | 0 <= i < |nodes| :: IsProperties(nodes[i])
    ensures RowsOf(nodes) == []
  {
    if nodes != [] {
      OnlyProperties(nodes[..|nodes| - 1]);
    }
  }

  lemma {:induction false} CasesAreRows(t: Tools, nodes: seq<Element>)
    requires forall i | 0 <= i < |nodes| :: NodeError(t, nodes[i]).None?
    ensures CountCases(nodes) == |RowsOf(nodes)|
  {
    if nodes != [] {
      CasesAreRows(t, nodes[..|nodes| - 1]);
      assert NodeError(t, nodes[|nodes| - 1]).None?;
    }
  }

  lemma {:induction false} OutcomesKnown(children: seq<Element>)
    ensures forall i | 0 <= i < |OutcomesOf(children)| :: OutcomesOf(children)[i] in OUTCOMES
  {
    if children != [] {
      OutcomesKnown(children[..|children| - 1]);
    }
  }

  lemma {:induction false} TallyConcat(a: seq<Row>, b: seq<Row>, outcome: string)
    ensures Tally(a + b, outcome) == Tally(a, outcome) + Tally(b, outcome)
  {
    if b == [] {
      assert a + b == a;
    } else {
      TallyConcat(a, b[..|b| - 1], outcome);
      assert (a + b)[..|a + b| - 1] == a + b[..|b| - 1];
    }
  }

  lemma {:induction false} PassesTallyNothing(rows: seq<Row>, outcome: string)
    requires outcome != "pass" && forall i | 0 <= i < |rows| :: rows[i].outcome == "pass"
    ensures Tally(rows, outcome) == 0
  {
    if rows != [] {
      PassesTallyNothing(rows[..|rows| - 1], outcome);
    }
  }

  lemma RowsSingle(node: Element)
    requires IsCase(node)
    ensures RowsOf([node]) == [RowOf(node)]
  {
    hide RowOf;
    assert [node][..0] == [];
  }

  lemma RowsAround(nodes: seq<Element>, k: nat)
    requires k < |nodes| && IsCase(nodes[k])
    ensures RowsOf(nodes) == RowsOf(nodes[..k]) + ([RowOf(nodes[k])] + RowsOf(nodes[k + 1..]))
  {
    hide RowOf, RowsOf, IsCase;
    RowsConcat(nodes[..k], nodes[k..]);
    assert nodes == nodes[..k] + nodes[k..];
    RowsConcat([nodes[k]], nodes[k + 1..]);
    assert nodes[k..] == [nodes[k]] + nodes[k + 1..];
    RowsSingle(nodes[k]);
  }

  lemma CaseOrProperties(t: Tools, node: Element)
    requires NodeError(t, node).None?
    ensures IsCase(node) || IsProperties(node)
  {}

  /** The first case splits the listing: nothing before it yields a row. */
  lemma FirstRow(t: Tools, nodes: seq<Element>)
    requires forall i | 0 <= i < |nodes| :: NodeError(t, nodes[i]).None?
    requires RowsOf(nodes) != []
    ensures FirstCase(nodes) < |nodes|
    ensures RowsOf(nodes[..FirstCase(nodes)]) == []
    ensures RowsOf(nodes) == [RowOf(nodes[FirstCase(nodes)])] + RowsOf(nodes[FirstCase(nodes) + 1..])
  {
    hide RowOf, RowsOf, NodeError, IsCase, IsProperties, FirstCase;
    var k := FirstCase(nodes);
    forall i | 0 <= i < k ensures IsProperties(nodes[..k][i]) {
      CaseOrProperties(t, nodes[i]);
    }
    OnlyProperties(nodes[..k]);
    assert nodes[..|nodes|] == nodes;
    RowsAround(nodes, k);
  }

  /** What an accepted suite gives. */
  ghost predicate Passing(t: Tools, root: Element, rows: seq<Row>) {
    SuiteRows(t, root) == Listed(rows) && rows != [] && forall i | 0 <= i < |rows| :: rows[i].outcome == "pass"
  }

  lemma PassingParts(t: Tools, root: Element, rows: seq<Row>)
    requires Passing(t, root, rows)
    ensures WrapperOk(root) && t.finite(Attr(root.children[0], "time"))
    ensures forall i | 0 <= i < |root.children[0].children| :: NodeError(t, root.children[0].children[i]).None?
    ensures RowsOf(root.children[0].children) == rows && |rows| <= MAX_CASES && TotalsOk(root.children[0], rows)
  {
    ListingOk(t, root.children[0].children);
  }

  /** A suite put in the place of an accepted one is listed when its nodes and totals are right. */
  lemma Relisted(t: Tools, root: Element, suite: Element, key: string)
    requires WrapperOk(root) && suite.tag == root.children[0].tag && key in SUITE
    requires suite.attrib == root.children[0].attrib[key := Attr(suite, key)]
    requires forall i | 0 <= i < |suite.children| :: NodeError(t, suite.children[i]).None?
    requires |RowsOf(suite.children)| <= MAX_CASES && TotalsOk(suite, RowsOf(suite.children))
    requires t.finite(Attr(suite, "time"))
    ensures SuiteRows(t, root.(children := root.children[0 := suite])) == Listed(RowsOf(suite.children))
  {
    hide NodeError, RowsOf, ListingError, TotalsOk;
    ListingOk(t, suite.children);
    assert suite.attrib.Keys == root.children[0].attrib.Keys + {key};
  }

  lemma DroppedRows(t: Tools, root: Element, rows: seq<Row>)
    requires Passing(t, root, rows)
    ensures FirstCase(root.children[0].children) < |root.children[0].children|
    ensures SuiteRows(t, root.(children := root.children[0 := DropCase(root.children[0])])) == Listed(rows[1..])
  {
    hide NodeError, RowOf, RowsOf, ListingError, TotalsOk, FirstCase, CountCases, Decimal, Tally, IsCase, WrapperOk;
    PassingParts(t, root, rows);
    var suite := root.children[0];
    var nodes := suite.children;
    FirstRow(t, nodes);
    var k := FirstCase(nodes);
    var left := nodes[..k] + nodes[k + 1..];
    RowsConcat(nodes[..k], nodes[k + 1..]);
    assert RowsOf(left) == rows[1..];
    CasesAreRows(t, left);
    DroppedTotals(suite, DropCase(suite), rows);
    Relisted(t, root, DropCase(suite), "tests");
  }

  lemma TestsSet(e: Element, changed: Element, value: string)
    requires changed.attrib == e.attrib["tests" := value]
    ensures Attr(changed, "tests") == value && Attr(changed, "failures") == Attr(e, "failures")
    ensures Attr(changed, "errors") == Attr(e, "errors") && Attr(changed, "skipped") == Attr(e, "skipped")
    ensures Attr(changed, "time") == Attr(e, "time")
  {
    assert "tests"[0] != "failures"[0] && "tests"[0] != "errors"[0] && "tests"[0] != "skipped"[0] &&
      "tests"[1] != "time"[1];
  }

  lemma SkippedSet(e: Element, changed: Element, value: string)
    requires changed.attrib == e.attrib["skipped" := value]
    ensures Attr(changed, "skipped") == value && Attr(changed, "failures") == Attr(e, "failures")
    ensures Attr(changed, "errors") == Attr(e, "errors") && Attr(changed, "tests") == Attr(e, "tests")
    ensures Attr(changed, "time") == Attr(e, "time")
  {
    assert "skipped"[0] != "failures"[0] && "skipped"[0] != "errors"[0] && "skipped"[0] != "tests"[0] &&
      "skipped"[0] != "time"[0];
  }

  lemma DroppedTotals(suite: Element, fewer: Element, rows: seq<Row>)
    requires rows != [] && TotalsOk(suite, rows) && forall i | 0 <= i < |rows| :: rows[i].outcome == "pass"
    requires fewer.attrib == suite.attrib["tests" := Decimal(|rows| - 1)]
    ensures TotalsOk(fewer, rows[1..]) && Attr(fewer, "time") == Attr(suite, "time")
  {
    hide ValueOf, Decimal, Digits, Tally, Attr;
    DecimalRoundTrip(|rows| - 1);
    TestsSet(suite, fewer, Decimal(|rows| - 1));
    PassesTally(rows);
    PassesTally(rows[1..]);
  }

  lemma PassesTally(rows: seq<Row>)
    requires forall i | 0 <= i < |rows| :: rows[i].outcome == "pass"
    ensures Tally(rows, "failure") == 0 && Tally(rows, "error") == 0 && Tally(rows, "skipped") == 0
  {
    PassesTallyNothing(rows, "failure");
    PassesTallyNothing(rows, "error");
    PassesTallyNothing(rows, "skipped");
  }

  lemma SkipIsDiagnostic()
    ensures DiagnosticOk(SKIP)
  {
    assert SKIP.tag in OUTCOMES && SKIP.children == [];
    SkipHolds("testcase");
    SkipHolds("testsuite");
  }

  lemma SkipHolds(tag: string)
    requires |tag| > 0 && tag[0] == 't'
    ensures !Holds(SKIP, tag)
  {
    assert SKIP.tag[0] == 's';
  }

  lemma OutcomesSkipped(children: seq<Element>)
    ensures OutcomesOf(children + [SKIP]) == OutcomesOf(children) + ["skipped"]
  {
    assert (children + [SKIP])[..|children|] == children;
  }

  lemma PassedHasNoOutcome(node: Element)
    requires RowOf(node).outcome == "pass"
    ensures OutcomesOf(node.children) == []
  {
    OutcomesKnown(node.children);
  }

  /** What is asked of a case, apart from its outcomes and diagnostics. */
  predicate CaseHeadOk(t: Tools, node: Element) {
    && node.attrib.Keys == {"classname", "name", "time"}
    && Texty(node.attrib["classname"]) && Texty(node.attrib["name"]) && t.finite(node.attrib["time"])
  }

  lemma CaseIsOk(t: Tools, node: Element)
    requires IsCase(node)
    ensures NodeError(t, node).None? <==>
      && CaseHeadOk(t, node) && |OutcomesOf(node.children)| <= 1
      && forall i | 0 <= i < |node.children| :: DiagnosticOk(node.children[i])
  {
    hide DiagnosticOk, OutcomesOf, Texty;
    assert node.tag != "properties";
  }

  /** A case that passed is still well formed with one skip under it. */
  lemma SkippedNode(t: Tools, node: Element)
    requires IsCase(node) && NodeError(t, node).None? && RowOf(node).outcome == "pass"
    ensures NodeError(t, node.(children := node.children + [SKIP])).None?
    ensures RowOf(node.(children := node.children + [SKIP])) == Row(RowOf(node).id, "skipped")
  {
    PassedHasNoOutcome(node);
    OutcomesSkipped(node.children);
    SkipIsDiagnostic();
    hide DiagnosticOk, OutcomesOf, NodeError, CaseHeadOk;
    var changed := node.(children := node.children + [SKIP]);
    CaseIsOk(t, node);
    CaseIsOk(t, changed);
    SameHead(t, node, changed);
    forall i | 0 <= i < |changed.children| ensures DiagnosticOk(changed.children[i]) {
      if i < |node.children| {
        assert DiagnosticOk(node.children[i]);
      }
    }
  }

  lemma SameHead(t: Tools, node: Element, changed: Element)
    requires CaseHeadOk(t, node) && changed.attrib == node.attrib
    ensures CaseHeadOk(t, changed)
  {}

  function SkipFirst(rows: seq<Row>): seq<Row> requires rows != [] { rows[0 := Row(rows[0].id, "skipped")] }

  lemma SkippedRows(t: Tools, root: Element, rows: seq<Row>)
    requires Passing(t, root, rows)
    ensures FirstCase(root.children[0].children) < |root.children[0].children|
    ensures SuiteRows(t, root.(children := root.children[0 := SkipCase(root.children[0])])) == Listed(SkipFirst(rows))
  {
    hide NodeError, RowOf, RowsOf, ListingError, TotalsOk, FirstCase, CountCases, Decimal, Tally, IsCase, WrapperOk;
    PassingParts(t, root, rows);
    var suite := root.children[0];
    var nodes := suite.children;
    FirstRow(t, nodes);
    var k := FirstCase(nodes);
    assert rows[0] == RowOf(nodes[k]);
    SkippedNode(t, nodes[k]);
    var changed := SkipCase(suite).children;
    SameFirst(nodes, changed, k);
    assert changed[..k] == nodes[..k] && changed[k + 1..] == nodes[k + 1..];
    forall i | 0 <= i < |changed| ensures NodeError(t, changed[i]).None? {
      assert i != k ==> changed[i] == nodes[i];
    }
    SkippedListing(t, nodes, changed, k);
    assert RowsOf(changed) == SkipFirst(rows);
    SkippedTotals(suite, SkipCase(suite), rows);
    Relisted(t, root, SkipCase(suite), "skipped");
  }

  lemma SkippedListing(t: Tools, nodes: seq<Element>, changed: seq<Element>, k: nat)
    requires |nodes| == |changed| && k < |nodes| && changed[..k] == nodes[..k] && changed[k + 1..] == nodes[k + 1..]
    requires k == FirstCase(changed) && RowsOf(nodes[..k]) == []
    requires IsCase(changed[k])
    ensures RowsOf(changed) == [RowOf(changed[k])] + RowsOf(nodes[k + 1..])
  {
    hide RowOf, RowsOf, IsCase;
    RowsAround(changed, k);
  }

  lemma {:induction false} SameFirst(a: seq<Element>, b: seq<Element>, k: nat)
    requires |a| == |b| && k == FirstCase(a) < |a| && b[k].tag == a[k].tag && b[..k] == a[..k]
    ensures FirstCase(b) == k
  {
    assert forall i | 0 <= i < k :: a[i] == a[..k][i] == b[..k][i] == b[i];
  }

  lemma SkippedTotals(suite: Element, changed: Element, rows: seq<Row>)
    requires rows != [] && TotalsOk(suite, rows) && forall i | 0 <= i < |rows| :: rows[i].outcome == "pass"
    requires changed.attrib == suite.attrib["skipped" := "1"]
    ensures TotalsOk(changed, SkipFirst(rows)) && Attr(changed, "time") == Attr(suite, "time")
  {
    hide Attr;
    SkippedSet(suite, changed, "1");
    PassesTally(rows);
    PassesTally(rows[1..]);
    var head := [Row(rows[0].id, "skipped")];
    assert SkipFirst(rows) == head + rows[1..];
    TallyConcat(head, rows[1..], "failure");
    TallyConcat(head, rows[1..], "error");
    TallyConcat(head, rows[1..], "skipped");
    assert head[..0] == [];
    assert "1"[..0] == "";
    assert ValueOf("1") == 1;
  }

  // ---- each control is refused for its own reason ------------------------

  lemma IdsOfRest(rows: seq<Row>)
    requires rows != []
    ensures Ids(rows[1..]) == Ids(rows)[1..] && Ids(SkipFirst(rows)) == Ids(rows)
  {}

  lemma MissingCoverage(rows: seq<Row>, required: seq<Case>)
    requires Distinct(required) && required != [] && CoverageError(rows, required).None?
    ensures |rows| == |required| && rows != []
    ensures CoverageError(rows[1..], required) ==
      Some(Reject(if |required| == 1 then "zero-execution" else "case-coverage", false))
  {
    CoverageMeans(rows, required);
    assert |Ids(rows)| == |multiset(Ids(rows))| == |multiset(required)|;
    IdsOfRest(rows);
    var ids, rest := Ids(rows), Ids(rows[1..]);
    if |rows| > 1 {
      assert ids[0] !in rest by {
        forall i | 0 <= i < |rest| ensures rest[i] != ids[0] {
          assert rest[i] == ids[i + 1];
        }
      }
      assert ids[0] in multiset(ids);
      assert ids[0] in Elements(required) - Elements(rest);
      forall i, j | 0 <= i < j < |rest| ensures rest[i] != rest[j] {
        assert rest[i] == ids[i + 1] && rest[j] == ids[j + 1];
      }
    }
  }

  lemma SkippedCoverage(rows: seq<Row>, required: seq<Case>)
    requires CoverageError(rows, required).None?
    ensures rows != [] && CoverageError(SkipFirst(rows), required) == Some(Reject("case-outcome", false))
  {
    IdsOfRest(rows);
    assert SkipFirst(rows)[0].outcome != "pass";
  }

  lemma ShrunkDiscovery(discovered: Json, policy: Json)
    requires DiscoveryError(discovered, policy).None? && Required(policy) != []
    ensures discovered.List? && discovered.items != []
    ensures DiscoveryError(List(discovered.items[..|discovered.items| - 1]), policy) ==
      Some(Reject("inventory-drift", false))
  {
    hide CaseOk;
    var universe := Required(policy) + Excluded(policy);
    var found := Cases(discovered.items);
    assert universe[0] in Elements(universe) && Elements(universe) == Elements(found);
    assert |found| > 0;
    var fewer := discovered.items[..|discovered.items| - 1];
    assert Cases(fewer) == found[..|found| - 1];
    assert found[|found| - 1] in Elements(found);
    assert found[|found| - 1] !in Cases(fewer);
  }

  lemma FailedChild(t: Tools, child: Json, profile: string)
    requires ChildError(t, child, profile).None?
    ensures ChildError(t, With(child, "exit_code", Int(1)), profile) == Some(Reject("execution", false))
  {
    hide TextOk, RunsXfail;
    var failed := With(child, "exit_code", Int(1));
    assert child.Object? && "exit_code" in CHILD;
    assert failed.fields.Keys == child.fields.Keys;
  }

  lemma Changed(run: Json, key: string, value: Json)
    requires Fields(run, RUN) && key in RUN
    ensures Fields(With(run, key, value), RUN) && Get(With(run, key, value), key) == value
    ensures forall other | other != key :: Get(With(run, key, value), other) == Get(run, other)
  {
    assert With(run, key, value).fields.Keys == run.fields.Keys;
  }

  lemma ChangedRun(
    t: Tools, run: Json, key: string, value: Json, policy: Json, inventory: Bytes, before: Bytes, report: Bytes)
    requires RunError(t, run, policy, inventory, before).None?
    requires key in {"discovered_cases", "child", "report"}
    requires key != "report" ==> report == before
    ensures RunError(t, With(run, key, value), policy, inventory, report) ==
            if key == "discovered_cases" then DiscoveryError(value, policy)
            else if key == "child" then ChildError(t, value, Profile(policy))
            else ReportError(t, value, report)
  {
    hide DiscoveryError, ChildError, PrerequisitesError, ReportError, TextOk, HexDigest;
    Changed(run, key, value);
  }

  /** Accepted evidence of the pytest profile, which is what the lane's controls start from. */
  ghost predicate Accepted(t: Tools, e: Evidence) {
    Hashing(t) && Account(t, e).accepted && t.load(e.inventory).Value? && Profile(t.load(e.inventory).json) == PYTEST
  }

  function PolicyOf(t: Tools, e: Evidence): Json {
    if t.load(e.inventory).Value? then t.load(e.inventory).json else Null
  }

  lemma AcceptedParts(t: Tools, e: Evidence)
    requires Accepted(t, e)
    ensures |e.inventory| <= MAX_BYTES && Fits(e) && e.anchor == t.sha(e.inventory) && HexDigest(e.anchor)
    ensures t.load(e.record).Value? && PolicyError(PolicyOf(t, e)).None? && t.parse(e.report).Tree?
    ensures RunError(t, t.load(e.record).json, PolicyOf(t, e), e.inventory, e.report).None?
    ensures SuiteRows(t, t.parse(e.report).root).Listed?
    ensures CoverageError(SuiteRows(t, t.parse(e.report).root).rows, Required(PolicyOf(t, e))).None?
    ensures Passing(t, t.parse(e.report).root, SuiteRows(t, t.parse(e.report).root).rows)
  {
    hide PolicyError, RunError, SuiteRows, HexDigest, Profile, Ids, Distinct;
  }

  lemma AcceptedIsEditable(t: Tools, e: Evidence)
    requires Accepted(t, e)
    ensures Editable(t, e)
  {
    hide Accepted, SuiteRows, PolicyError, RunError, CoverageError, Passing, NodeError, RowsOf, TotalsOk, FirstCase;
    AcceptedParts(t, e);
    var root := t.parse(e.report).root;
    PassingParts(t, root, SuiteRows(t, root).rows);
    DroppedRows(t, root, SuiteRows(t, root).rows);
  }

  lemma AcceptedProfile(t: Tools, e: Evidence)
    requires Accepted(t, e)
    ensures t.load(e.inventory).Value? && Profile(PolicyOf(t, e)) == PYTEST && forall b :: HexDigest(t.sha(b))
  {}

  /** Evidence whose record and report alone were rewritten is judged by its content, if it fits. */
  lemma Rewritten(t: Tools, e: Evidence, run: Json, report: Bytes)
    requires Accepted(t, e) && t.load(t.dump(run)) == Value(run)
    ensures var changed := e.(record := t.dump(run), report := report);
      FirstError(t, changed) == if Fits(changed)
        then ContentError(t, PolicyOf(t, e), run, e.inventory, report) else Some(Reject("size-limit", true))
  {
    hide Accepted, ContentError, SuiteRows, PolicyError, RunError, CoverageError, Passing, HexDigest;
    AcceptedParts(t, e);
    AcceptedProfile(t, e);
  }

  /** A rewritten report with a matching identity is judged by the cases it lists. */
  lemma ReportedVerdict(t: Tools, e: Evidence, root: Element, rows: seq<Row>)
    requires Accepted(t, e) && t.load(e.record).Value? && SuiteRows(t, root) == Listed(rows)
    requires t.parse(t.render(root)) == Tree(root)
    requires var run := With(t.load(e.record).json, "report", Identity(t, t.render(root)));
      t.load(t.dump(run)) == Value(run)
    ensures var run := With(t.load(e.record).json, "report", Identity(t, t.render(root)));
      var changed := e.(record := t.dump(run), report := t.render(root));
      FirstError(t, changed) == if Fits(changed)
        then CoverageError(rows, Required(PolicyOf(t, e))) else Some(Reject("size-limit", true))
  {
    hide Accepted, FirstError, SuiteRows, PolicyError, RunError, CoverageError, Passing, HexDigest;
    AcceptedParts(t, e);
    var run, report := t.load(e.record).json, t.render(root);
    var record := With(run, "report", Identity(t, report));
    Rewritten(t, e, record, report);
    AcceptedProfile(t, e);
    ChangedRun(t, run, "report", Identity(t, report), PolicyOf(t, e), e.inventory, e.report, report);
    IdentityMatches(t, report);
  }

  lemma IdentityMatches(t: Tools, report: Bytes)
    requires HexDigest(t.sha(report))
    ensures ReportError(t, Identity(t, report), report).None?
  {}

  /** A record with one entry changed is judged by that entry. */
  lemma ChangedVerdict(t: Tools, e: Evidence, key: string, value: Json, reason: Reject)
    requires Accepted(t, e) && t.load(e.record).Value? && key in {"discovered_cases", "child"}
    requires key == "discovered_cases" ==> DiscoveryError(value, PolicyOf(t, e)) == Some(reason)
    requires key == "child" ==> ChildError(t, value, PYTEST) == Some(reason)
    requires var run := With(t.load(e.record).json, key, value); t.load(t.dump(run)) == Value(run)
    ensures var changed := e.(record := t.dump(With(t.load(e.record).json, key, value)));
      FirstError(t, changed) == Some(if Fits(changed) then reason else Reject("size-limit", true))
  {
    hide Accepted, FirstError, SuiteRows, PolicyError, RunError, CoverageError, Passing, HexDigest;
    hide DiscoveryError, ChildError, ReportError;
    AcceptedParts(t, e);
    var run := t.load(e.record).json;
    Rewritten(t, e, With(run, key, value), e.report);
    AcceptedProfile(t, e);
    ChangedRun(t, run, key, value, PolicyOf(t, e), e.inventory, e.report, e.report);
  }

  lemma RunParts(t: Tools, run: Json, policy: Json, inventory: Bytes, report: Bytes)
    requires RunError(t, run, policy, inventory, report).None?
    ensures DiscoveryError(Get(run, "discovered_cases"), policy).None?
    ensures ChildError(t, Get(run, "child"), Profile(policy)).None?
  {
    hide HeaderError, DiscoveryError, ChildError, PrerequisitesError, ReportError;
  }

  /** The one reason for which a control is refused. */
  function Reason(t: Tools, e: Evidence, control: Control): Reject requires Editable(t, e) {
    if !Fits(Mutated(t, e, control)) then Reject("size-limit", true)
    else if control == Missing && |Required(PolicyOf(t, e))| == 1 then Reject("zero-execution", false)
    else Reject(Expected(control), false)
  }

  lemma ReportControls(t: Tools, e: Evidence, control: Control)
    requires Accepted(t, e) && Editable(t, e) && EditsReport(control) && ReadsBack(t, e, control)
    ensures FirstError(t, Mutated(t, e, control)) == Some(Reason(t, e, control))
  {
    hide Accepted, FirstError, SuiteRows, PolicyError, RunError, CoverageError, Passing, DropCase, SkipCase, FirstCase;
    AcceptedParts(t, e);
    PolicyGivesDistinct(PolicyOf(t, e));
    var root := t.parse(e.report).root;
    var rows := SuiteRows(t, root).rows;
    if control == Missing {
      DroppedRows(t, root, rows);
      MissingCoverage(rows, Required(PolicyOf(t, e)));
      ReportedVerdict(t, e, EditedRoot(t, e, control), rows[1..]);
    } else {
      SkippedRows(t, root, rows);
      SkippedCoverage(rows, Required(PolicyOf(t, e)));
      ReportedVerdict(t, e, EditedRoot(t, e, control), SkipFirst(rows));
    }
  }

  lemma RecordControls(t: Tools, e: Evidence, control: Control)
    requires Accepted(t, e) && Editable(t, e) && !EditsReport(control) && ReadsBack(t, e, control)
    ensures FirstError(t, Mutated(t, e, control)) == Some(Reason(t, e, control))
  {
    hide Accepted, FirstError, SuiteRows, PolicyError, RunError, CoverageError, Passing, DiscoveryError, ChildError;
    AcceptedParts(t, e);
    PolicyGivesDistinct(PolicyOf(t, e));
    var run := t.load(e.record).json;
    RunParts(t, run, PolicyOf(t, e), e.inventory, e.report);
    AcceptedProfile(t, e);
    if control == ChildExit {
      FailedChild(t, Get(run, "child"), PYTEST);
      ChangedVerdict(t, e, "child", With(Get(run, "child"), "exit_code", Int(1)), Reject("execution", false));
    } else {
      ShrunkDiscovery(Get(run, "discovered_cases"), PolicyOf(t, e));
      var found := Items(Get(run, "discovered_cases"));
      ChangedVerdict(t, e, "discovered_cases", List(found[..|found| - 1]), Reject("inventory-drift", false));
    }
  }

  /**
   Every control of accepted evidence is refused with one code: its own, unless the
   rewritten files are too large or the dropped case was the only one.
   */
  lemma ControlVerdict(t: Tools, e: Evidence, control: Control)
    requires Accepted(t, e) && Editable(t, e) && ReadsBack(t, e, control)
    ensures var reason := Reason(t, e, control);
      Account(t, Mutated(t, e, control)) == Verdict(if reason.invalid then 2 else 1, false, [reason.code])
  {
    hide Accepted, FirstError, Mutated, Reason, ReadsBack, Editable;
    if EditsReport(control) {
      ReportControls(t, e, control);
    } else {
      RecordControls(t, e, control);
    }
  }

  /** How the accountant's process ended. */
  datatype Process = Process(
    returncode: int, timedOut: bool, cancelledBy: Option<int>, logLimitExceeded: bool,
    cleanupRequired: bool, cleanupErrors: seq<string>, error: Option<string>)

  predicate Orderly(p: Process) {
    !p.timedOut && p.cancelledBy.None? && !p.logLimitExceeded && !p.cleanupRequired && p.cleanupErrors == [] &&
      p.error.None?
  }

  /** `intentional_rejection` */
  predicate IntentionalRejection(p: Process, v: Verdict, expected: string) {
    p.returncode == 1 && Orderly(p) && !v.accepted && v.errors == [expected]
  }

  /** The control's evidence, judged and reported by its process, is refused as intended. */
  predicate Rejected(t: Tools, e: Evidence, watch: (Control, nat) -> Process, control: Control)
    requires Editable(t, e)
  {
    var verdict := Account(t, Mutated(t, e, control));
    IntentionalRejection(watch(control, verdict.status), verdict, Expected(control))
  }

  const CONTROLS := [Missing, Skipped, ChildExit, CollectionShrink]

  /** A control can show what it is meant to show. */
  predicate Effective(t: Tools, e: Evidence, control: Control) requires Editable(t, e) {
    Fits(Mutated(t, e, control)) && (control == Missing ==> |Required(PolicyOf(t, e))| >= 2)
  }

  /**
   `controls`: the first control that is not refused as intended, if any.  With orderly
   processes that report the accountant's status there is none exactly when every control is effective.
   */
  method Controls(t: Tools, e: Evidence, watch: (Control, nat) -> Process) returns (failed: Option<Control>)
    requires Accepted(t, e) && Editable(t, e) && forall c :: ReadsBack(t, e, c)
    ensures (forall c, n :: Orderly(watch(c, n)) && watch(c, n).returncode == n) ==>
      (failed.None? <==> forall c :: Effective(t, e, c))
    ensures failed.Some? ==> !Rejected(t, e, watch, failed.value)
  {
    hide Accepted, Account, Mutated, Editable, Effective, ReadsBack;
    PolicySize(t, e);
    forall c ensures Telling(t, e, c) {
      ControlTells(t, e, c);
    }
    for i := 0 to |CONTROLS|
      invariant forall k | 0 <= k < i :: Rejected(t, e, watch, CONTROLS[k])
    {
      var control := CONTROLS[i];
      var verdict := Account(t, Mutated(t, e, control));
      assert Telling(t, e, control);
      if !IntentionalRejection(watch(control, verdict.status), verdict, Expected(control)) {
        return Some(control);
      }
    }
    forall c ensures Effective(t, e, c) || exists c', n :: !(Orderly(watch(c', n)) && watch(c', n).returncode == n) {
      var k := match c case Missing => 0 case Skipped => 1 case ChildExit => 2 case CollectionShrink => 3;
      assert CONTROLS[k] == c && Telling(t, e, c);
    }
    return None;
  }

  /** A refusal carries the expected code exactly when the control is effective. */
  ghost predicate Telling(t: Tools, e: Evidence, control: Control) {
    Editable(t, e) && var v := Account(t, Mutated(t, e, control));
    !v.accepted && (v.errors == [Expected(control)] <==> Effective(t, e, control)) &&
      (Effective(t, e, control) ==> v.status == 1)
  }

  lemma PolicySize(t: Tools, e: Evidence)
    requires Accepted(t, e)
    ensures |Required(PolicyOf(t, e))| >= 1
  {
    hide Accepted, SuiteRows, RunError, CoverageError, Passing;
    AcceptedParts(t, e);
    PolicyGivesDistinct(PolicyOf(t, e));
  }

  lemma ControlTells(t: Tools, e: Evidence, control: Control)
    requires Accepted(t, e) && Editable(t, e) && ReadsBack(t, e, control)
    ensures Telling(t, e, control)
  {
    hide Accepted, Account, Mutated, ReadsBack;
    ControlVerdict(t, e, control);
    PolicySize(t, e);
    CodesDiffer(control);
  }

  lemma CodesDiffer(control: Control)
    ensures Expected(control) != "size-limit" && Expected(control) != "zero-execution"
  {
    assert Expected(control)[0] in {'c', 'e', 'i'};
  }
}
