/**
 * Building one tracker issue from one technology request (server/jira.ts):
 * the summary, the marked-up description, the labels and the priority, the
 * configuration guard and the browse URL of the created issue. The HTTP call
 * itself is the `Tracker` collaborator, which may answer anything.
 */
module Jira {
  import opened Wrappers

  /** The data one issue is built from: one requested technology plus the requester's squad and email. */
  datatype TicketData = TicketData(
    technology: string,
    solutionCode: string,
    environment: string,
    squad: string,
    email: string,
    cpu: Option<int>,
    ram: Option<int>,
    dbEngine: Option<string>,
    diskSize: Option<int>,
    storageType: Option<string>,
    storageQuota: Option<int>)

  /** JavaScript truthiness of an optional number: present and not zero. */
  predicate Truthy(n: Option<int>) {
    n.Some? && n.value != 0
  }

  /** JavaScript truthiness of an optional string: present and not empty. */
  predicate Filled(s: Option<string>) {
    s.Some? && s.value != ""
  }

  // ---------------------------------------------------------------------------
  // Decimal rendering of the numbers interpolated into the description
  // ---------------------------------------------------------------------------

  /** The value of a decimal digit character. */
  function DigitValue(c: char): nat
    requires '0' <= c <= '9'
  {
    c as int - '0' as int
  }

  function DigitChar(d: nat): (c: char)
    requires d < 10
    ensures '0' <= c <= '9' && DigitValue(c) == d
  {
    "0123456789"[d]
  }

  /** A string of decimal digits. */
  predicate AllDigits(s: string) {
    forall i :: 0 <= i < |s| ==> '0' <= s[i] <= '9'
  }

  /** The number a string of decimal digits stands for, most significant digit first. */
  function DigitsValue(s: string): nat
    requires AllDigits(s)
  {
    if s == [] then 0 else DigitsValue(s[..|s| - 1]) * 10 + DigitValue(s[|s| - 1])
  }

  /** Decimal digits of `n`, most significant first, without leading zeros. */
  function NatToDecimal(n: nat): (s: string)
    ensures |s| >= 1 && AllDigits(s)
    ensures |s| > 1 ==> s[0] != '0'
  {
    if n < 10 then [DigitChar(n)] else NatToDecimal(n / 10) + [DigitChar(n % 10)]
  }

  /** The digits of `n` stand for `n`. */
  lemma {:induction false} NatToDecimalValue(n: nat)
    ensures DigitsValue(NatToDecimal(n)) == n
  {
    if n >= 10 {
      var s := NatToDecimal(n / 10);
      NatToDecimalValue(n / 10);
      assert (s + [DigitChar(n % 10)])[..|s|] == s;
    }
  }

  /** How a template literal renders an integral number: a minus sign, then the digits. */
  function IntToDecimal(n: int): (s: string)
    ensures |s| >= 1
    ensures (s[0] == '-') <==> n < 0
  {
    if n < 0 then "-" + NatToDecimal(-n) else NatToDecimal(n)
  }

  /** The rendering of `n` stands for `n`: its sign, then the digits of its magnitude. */
  lemma {:induction false} IntToDecimalValue(n: int)
    ensures n >= 0 ==> AllDigits(IntToDecimal(n)) && DigitsValue(IntToDecimal(n)) == n
    ensures n < 0 ==> AllDigits(IntToDecimal(n)[1..]) && DigitsValue(IntToDecimal(n)[1..]) == -n
  {
    var t := NatToDecimal(if n < 0 then -n else n);
    NatToDecimalValue(if n < 0 then -n else n);
    if n < 0 {
      assert IntToDecimal(n) == "-" + t;
      assert IntToDecimal(n)[1..] == t;
    } else {
      assert IntToDecimal(n) == t;
    }
  }


  // ---------------------------------------------------------------------------
  // Summary
  // ---------------------------------------------------------------------------

  /** The issue title: the technology in brackets, then the solution code and the environment. */
  function BuildSummary(d: TicketData): (summary: string)
    ensures |summary| == |d.technology| + |d.solutionCode| + |d.environment| + 6
    ensures summary[0] == '[' && summary[|summary| - |d.environment|..] == d.environment
  {
    "[" + d.technology + "] " + d.solutionCode + " - " + d.environment
  }

  /** The longest prefix of `s` that does not contain `stop`. */
  function TakeUntil(s: string, stop: char): (r: string)
    ensures r <= s && stop !in r
    ensures |r| < |s| ==> s[|r|] == stop
  {
    if s == [] || s[0] == stop then [] else [s[0]] + TakeUntil(s[1..], stop)
  }

  /** Reads the technology back from a summary: the text between the leading '[' and the first ']'. */
  function TechnologyOfSummary(summary: string): string {
    if summary != [] && summary[0] == '[' then TakeUntil(summary[1..], ']') else ""
  }

  lemma {:induction false} TakeUntilStopsAtFirst(a: string, stop: char, b: string)
    requires stop !in a
    ensures TakeUntil(a + [stop] + b, stop) == a
  {
    if a != [] {
      assert (a + [stop] + b)[1..] == a[1..] + [stop] + b;
      TakeUntilStopsAtFirst(a[1..], stop, b);
    }
  }

  /** A summary names the technology it was built for, as long as that name has no ']'. */
  lemma SummaryNamesTechnology(d: TicketData)
    requires ']' !in d.technology
    ensures TechnologyOfSummary(BuildSummary(d)) == d.technology
  {
    var rest := " " + d.solutionCode + " - " + d.environment;
    assert BuildSummary(d)[1..] == d.technology + [']'] + rest;
    TakeUntilStopsAtFirst(d.technology, ']', rest);
  }

  // ---------------------------------------------------------------------------
  // Labels and priority
  // ---------------------------------------------------------------------------

  /** Labels: the technology, the environment and the marker of automatic creation, never deduplicated. */
  function BuildLabels(d: TicketData): (labels: seq<string>)
    ensures |labels| == 3
    ensures labels[0] == d.technology && labels[1] == d.environment && labels[2] == "AutoCreated"
  {
    [d.technology, d.environment, "AutoCreated"]
  }

  /** The environment-to-priority table; its four own keys are the only ones looked up. */
  const PriorityTable: map<string, string> :=
    map["PROD" := "High", "UAT" := "Medium", "INT" := "Medium", "DEV" := "Low"]

  /** The priority used when the table has no (non-empty) entry for the environment. */
  const DefaultPriority: string := "Medium"

  /** Looks the environment up in the table, falling back to the default when the lookup is falsy. */
  function GetPriority(environment: string): (priority: string)
    ensures priority == "High" || priority == "Medium" || priority == "Low"
    ensures environment in PriorityTable ==> priority == PriorityTable[environment]
    ensures environment !in PriorityTable ==> priority == DefaultPriority
  {
    if environment in PriorityTable && PriorityTable[environment] != "" then PriorityTable[environment]
    else DefaultPriority
  }

  /** Only production is urgent and only development is low; everything else, composites included, is medium. */
  lemma PriorityLevels(environment: string)
    ensures GetPriority(environment) == "High" <==> environment == "PROD"
    ensures GetPriority(environment) == "Low" <==> environment == "DEV"
    ensures GetPriority(environment) == "Medium" <==> environment != "PROD" && environment != "DEV"
  {
    if environment in PriorityTable {
      assert environment == "PROD" || environment == "UAT" || environment == "INT" || environment == "DEV";
    }
  }

  // ---------------------------------------------------------------------------
  // Description
  // ---------------------------------------------------------------------------

  /** Lines each ended by a line break: how a multi-line template literal that ends in a line break reads. */
  function Terminated(lines: seq<string>): string {
    if lines == [] then "" else lines[0] + "\n" + Terminated(lines[1..])
  }

  /** Lines separated by line breaks: how a multi-line template literal reads. */
  function JoinLines(lines: seq<string>): string {
    if lines == [] then "" else if |lines| == 1 then lines[0] else lines[0] + "\n" + JoinLines(lines[1..])
  }

  /** The general-information header, technology, environment, solution code, squad and email in that order, then a blank line. */
  function HeaderLines(d: TicketData): seq<string> {
    [ "*Demande Technique Automatisée*",
      "---",
      "*Informations Générales*",
      "* Technologie : " + d.technology,
      "* Environnement : " + d.environment,
      "* Code Solution : " + d.solutionCode,
      "* Squad : " + d.squad,
      "* Demandeur : " + d.email,
      "" ]
  }

  function ComputeLines(cpu: int, ram: int): seq<string> {
    [ "*Spécifications Compute*",
      "* CPU : " + IntToDecimal(cpu) + " Cores",
      "* RAM : " + IntToDecimal(ram) + " GB",
      "" ]
  }

  function DatabaseLines(engine: string, diskSize: int): seq<string> {
    [ "*Spécifications Base de Données*",
      "* Moteur : " + engine,
      "* Taille Disque : " + IntToDecimal(diskSize) + " GB",
      "" ]
  }

  function StorageLines(kind: string, quota: int): seq<string> {
    [ "*Spécifications Stockage*",
      "* Type : " + kind,
      "* Quota : " + IntToDecimal(quota) + " GB",
      "" ]
  }

  /** The fixed five-item acceptance checklist. */
  const AcceptanceLines: seq<string> :=
    [ "*Critères d'Acceptation*",
      "- [ ] Ressource provisionnée",
      "- [ ] Configuration validée",
      "- [ ] Accès accordés à la squad",
      "- [ ] Monitoring configuré",
      "- [ ] Documentation mise à jour" ]

  function GeneralInformation(d: TicketData): string {
    Terminated(HeaderLines(d))
  }

  function ComputeSection(cpu: int, ram: int): string {
    Terminated(ComputeLines(cpu, ram))
  }

  function DatabaseSection(engine: string, diskSize: int): string {
    Terminated(DatabaseLines(engine, diskSize))
  }

  function StorageSection(kind: string, quota: int): string {
    Terminated(StorageLines(kind, quota))
  }

  /** The checklist that ends every description, with no line break after its last item. */
  const AcceptanceCriteria: string := JoinLines(AcceptanceLines)

  /** A compute request with both a CPU count and a RAM size. */
  predicate ComputeRequested(d: TicketData) {
    (d.technology == "VM" || d.technology == "Kubernetes") && Truthy(d.cpu) && Truthy(d.ram)
  }

  /** A database request with an engine and a disk size. */
  predicate DatabaseRequested(d: TicketData) {
    d.technology == "Database" && Filled(d.dbEngine) && Truthy(d.diskSize)
  }

  /** A storage request with a storage type and a quota. */
  predicate StorageRequested(d: TicketData) {
    d.technology == "Storage" && Filled(d.storageType) && Truthy(d.storageQuota)
  }

  /** The specification sections: each one appended under its own guard, in the source's order. */
  function SpecificationSections(d: TicketData): string {
    (if ComputeRequested(d) then ComputeSection(d.cpu.value, d.ram.value) else "")
    + (if DatabaseRequested(d) then DatabaseSection(d.dbEngine.value, d.diskSize.value) else "")
    + (if StorageRequested(d) then StorageSection(d.storageType.value, d.storageQuota.value) else "")
  }

  /** The description as a value: the header, the specification sections, the checklist. */
  function Description(d: TicketData): string {
    GeneralInformation(d) + SpecificationSections(d) + AcceptanceCriteria
  }

  // Three sequence facts, stated once so that the proof of BuildDescription applies
  // them to its strings without unfolding the fixed texts.

  lemma Associative(x: string, y: string, z: string)
    ensures x + y + z == x + (y + z)
  {
  }

  lemma Framed(g: string, x: string, a: string)
    ensures |g + x + a| == |g| + |x| + |a|
    ensures (g + x + a)[..|g|] == g
    ensures (g + x + a)[|g| + |x|..] == a
  {
  }

  lemma EmptyIsUnit(x: string)
    ensures x + "" == x && "" + x == x
  {
  }

  /** The description built the way the source builds it, by appending section after section. */
  method BuildDescription(d: TicketData) returns (description: string)
    ensures description == Description(d)
    ensures |description| >= |GeneralInformation(d)| + |AcceptanceCriteria|
    ensures description[..|GeneralInformation(d)|] == GeneralInformation(d)
    ensures description[|description| - |AcceptanceCriteria|..] == AcceptanceCriteria
  {
    AtMostOneSection(d);
    var header := GeneralInformation(d);
    ghost var sections: string := "";
    description := header;
    EmptyIsUnit(header);
    if ComputeRequested(d) {
      var section := ComputeSection(d.cpu.value, d.ram.value);
      Associative(header, sections, section);
      EmptyIsUnit(section);
      sections := sections + section;
      description := description + section;
    }
    if DatabaseRequested(d) {
      var section := DatabaseSection(d.dbEngine.value, d.diskSize.value);
      Associative(header, sections, section);
      EmptyIsUnit(section);
      sections := sections + section;
      description := description + section;
    }
    if StorageRequested(d) {
      var section := StorageSection(d.storageType.value, d.storageQuota.value);
      Associative(header, sections, section);
      EmptyIsUnit(section);
      sections := sections + section;
      description := description + section;
    }
    assert sections == ShownSection(d);
    description := description + AcceptanceCriteria;
    Framed(header, sections, AcceptanceCriteria);
  }

  /** `block` is the whole of what stands between the header and the checklist of `d`'s description. */
  predicate Shows(d: TicketData, block: string) {
    Description(d) == GeneralInformation(d) + block + AcceptanceCriteria
  }

  lemma {:induction false} MiddleDetermined(g: string, x: string, y: string, a: string)
    requires g + x + a == g + y + a
    ensures x == y
  {
    assert |x| == |y|;
    assert x == (g + x + a)[|g|..|g| + |x|];
    assert y == (g + y + a)[|g|..|g| + |y|];
  }

  /** The guards of the three sections exclude each other. */
  lemma AtMostOneSection(d: TicketData)
    ensures !(ComputeRequested(d) && DatabaseRequested(d))
    ensures !(ComputeRequested(d) && StorageRequested(d))
    ensures !(DatabaseRequested(d) && StorageRequested(d))
  {
  }

  /** The one section shown, if any: the sections' guards exclude each other. */
  function ShownSection(d: TicketData): (block: string)
    ensures block == SpecificationSections(d)
    ensures Shows(d, block)
  {
    AtMostOneSection(d);
    if ComputeRequested(d) then ComputeSection(d.cpu.value, d.ram.value)
    else if DatabaseRequested(d) then DatabaseSection(d.dbEngine.value, d.diskSize.value)
    else if StorageRequested(d) then StorageSection(d.storageType.value, d.storageQuota.value)
    else ""
  }

  /** The character after "*Spécifications " tells the three kinds of section apart. */
  lemma SectionMarks(cpu: int, ram: int, engine: string, diskSize: int, kind: string, quota: int)
    ensures |ComputeSection(cpu, ram)| > 16 && ComputeSection(cpu, ram)[16] == 'C'
    ensures |DatabaseSection(engine, diskSize)| > 16 && DatabaseSection(engine, diskSize)[16] == 'B'
    ensures |StorageSection(kind, quota)| > 16 && StorageSection(kind, quota)[16] == 'S'
  {
    assert ComputeSection(cpu, ram) == ComputeLines(cpu, ram)[0] + "\n" + Terminated(ComputeLines(cpu, ram)[1..]);
    assert DatabaseSection(engine, diskSize)
        == DatabaseLines(engine, diskSize)[0] + "\n" + Terminated(DatabaseLines(engine, diskSize)[1..]);
    assert StorageSection(kind, quota) == StorageLines(kind, quota)[0] + "\n" + Terminated(StorageLines(kind, quota)[1..]);
  }

  /** The section shown for `d` is `block` and nothing else. */
  lemma {:induction false} OnlyShown(d: TicketData, block: string)
    requires Shows(d, block)
    ensures block == ShownSection(d)
  {
    var shown := ShownSection(d);
    MiddleDetermined(GeneralInformation(d), shown, block, AcceptanceCriteria);
  }

  /** The compute section is shown exactly when a VM or Kubernetes request has CPU and RAM. */
  lemma ComputeSectionIff(d: TicketData)
    ensures (d.cpu.Some? && d.ram.Some? && Shows(d, ComputeSection(d.cpu.value, d.ram.value))) <==> ComputeRequested(d)
  {
    var _ := ShownSection(d);
    if d.cpu.Some? && d.ram.Some? && Shows(d, ComputeSection(d.cpu.value, d.ram.value)) {
      OnlyShown(d, ComputeSection(d.cpu.value, d.ram.value));
      SectionMarks(d.cpu.value, d.ram.value, d.dbEngine.GetOr(""), d.diskSize.GetOr(0),
                   d.storageType.GetOr(""), d.storageQuota.GetOr(0));
    }
  }

  /** The database section is shown exactly when a Database request has an engine and a disk size. */
  lemma DatabaseSectionIff(d: TicketData)
    ensures (d.dbEngine.Some? && d.diskSize.Some? && Shows(d, DatabaseSection(d.dbEngine.value, d.diskSize.value)))
            <==> DatabaseRequested(d)
  {
    var _ := ShownSection(d);
    if d.dbEngine.Some? && d.diskSize.Some? && Shows(d, DatabaseSection(d.dbEngine.value, d.diskSize.value)) {
      OnlyShown(d, DatabaseSection(d.dbEngine.value, d.diskSize.value));
      SectionMarks(d.cpu.GetOr(0), d.ram.GetOr(0), d.dbEngine.value, d.diskSize.value,
                   d.storageType.GetOr(""), d.storageQuota.GetOr(0));
    }
  }

  /** The storage section is shown exactly when a Storage request has a type and a quota. */
  lemma StorageSectionIff(d: TicketData)
    ensures (d.storageType.Some? && d.storageQuota.Some?
             && Shows(d, StorageSection(d.storageType.value, d.storageQuota.value)))
            <==> StorageRequested(d)
  {
    var _ := ShownSection(d);
    if d.storageType.Some? && d.storageQuota.Some? && Shows(d, StorageSection(d.storageType.value, d.storageQuota.value)) {
      OnlyShown(d, StorageSection(d.storageType.value, d.storageQuota.value));
      SectionMarks(d.cpu.GetOr(0), d.ram.GetOr(0), d.dbEngine.GetOr(""), d.diskSize.GetOr(0),
                   d.storageType.value, d.storageQuota.value);
    }
  }

  /** Middleware, unknown technologies and incomplete requests get only the header and the checklist. */
  lemma NoSectionIff(d: TicketData)
    ensures Shows(d, "") <==> !ComputeRequested(d) && !DatabaseRequested(d) && !StorageRequested(d)
  {
    var _ := ShownSection(d);
    if Shows(d, "") {
      OnlyShown(d, "");
      SectionMarks(d.cpu.GetOr(0), d.ram.GetOr(0), d.dbEngine.GetOr(""), d.diskSize.GetOr(0),
                   d.storageType.GetOr(""), d.storageQuota.GetOr(0));
    }
  }

  // ---------------------------------------------------------------------------
  // Issue creation
  // ---------------------------------------------------------------------------

  /** The tracker settings read from the process environment; each may be unset. */
  datatype JiraConfig = JiraConfig(
    domain: Option<string>,
    email: Option<string>,
    apiToken: Option<string>,
    projectKey: Option<string>)

  /** Every setting is set and non-empty. */
  predicate ConfigPresent(c: JiraConfig) {
    Filled(c.domain) && Filled(c.email) && Filled(c.apiToken) && Filled(c.projectKey)
  }

  const ConfigMissing: string := "Jira configuration missing"

  /** The `fields` object of the issue-creation request. */
  datatype IssuePayload = IssuePayload(
    projectKey: string,
    summary: string,
    description: string,
    issueType: string,
    priority: string,
    labels: seq<string>)

  /** The issue-creation request for `d` in project `projectKey`. */
  function PayloadFor(projectKey: string, d: TicketData): IssuePayload {
    IssuePayload(projectKey, BuildSummary(d), Description(d), "Task", GetPriority(d.environment), BuildLabels(d))
  }

  /** The parts of a payload agree: the summary and the first label name the same technology, and production is what makes it urgent. */
  lemma PayloadAgrees(projectKey: string, d: TicketData)
    requires ']' !in d.technology
    ensures var p := PayloadFor(projectKey, d);
      && TechnologyOfSummary(p.summary) == p.labels[0]
      && (p.priority == "High" <==> p.labels[1] == "PROD")
  {
    SummaryNamesTechnology(d);
    PriorityLevels(d.environment);
  }

  /** A value thrown in JavaScript: an `Error` with its message, or anything else. */
  datatype Thrown = ErrorValue(message: string) | OtherValue

  /** The tracker's answer to one creation request: the assigned key, or what the call threw. */
  datatype Reply = Created(key: string) | Failed(thrown: Thrown)

  /** The latest entry of a log. */
  function Last<T>(s: seq<T>): T
    requires |s| > 0
  {
    s[|s| - 1]
  }

  /** The key and browse URL returned for a created issue. */
  datatype TicketResponse = TicketResponse(key: string, url: string)

  /** The browse URL of issue `key` on `domain`. */
  function BrowseUrl(domain: string, key: string): (url: string)
    ensures |url| == |domain| + |key| + 16
    ensures url[..8] == "https://" && url[|url| - |key|..] == key
  {
    "https://" + domain + "/browse/" + key
  }

  /** On one domain, a browse URL names exactly one key. */
  lemma {:induction false} BrowseUrlDeterminesKey(domain: string, key1: string, key2: string)
    requires BrowseUrl(domain, key1) == BrowseUrl(domain, key2)
    ensures key1 == key2
  {
    var url := BrowseUrl(domain, key1);
    assert key1 == url[|domain| + 16..];
    assert key2 == url[|domain| + 16..];
  }

  /** The answer for a created key: the key and its browse URL. */
  function ResponseOf(domain: string, key: string): TicketResponse {
    TicketResponse(key, BrowseUrl(domain, key))
  }

  /** What creating an issue yields once the tracker has answered. */
  function ResponseFor(domain: string, reply: Reply): (r: Result<TicketResponse, Thrown>)
    ensures reply.Created? <==> r.Success?
    ensures r.Success? ==> r.value.key == reply.key && r.value.url == BrowseUrl(domain, reply.key)
    ensures r.Failure? ==> r.error == reply.thrown
  {
    match reply
    case Created(key) => Success(ResponseOf(domain, key))
    case Failed(thrown) => Failure(thrown)
  }

  /**
   * The issue tracker's creation endpoint. It records every request it receives and
   * answers each with a key or a failure, of its own choosing.
   */
  class Tracker {
    var requests: seq<IssuePayload>
    var replies: seq<Reply>

    /** Every request received has been answered. */
    ghost predicate Valid()
      reads this
    {
      |requests| == |replies|
    }

    constructor ()
      ensures Valid() && requests == [] && replies == []
    {
      requests := [];
      replies := [];
    }

    method Post(payload: IssuePayload) returns (reply: Reply)
      requires Valid()
      modifies this
      ensures Valid()
      ensures requests == old(requests) + [payload]
      ensures replies == old(replies) + [reply]
    {
      reply :| true;
      requests := requests + [payload];
      replies := replies + [reply];
    }
  }

  /**
   * Creates one issue: refuses before building anything when a setting is missing,
   * otherwise posts the payload once and turns the answer into a key and a browse URL.
   */
  method CreateJiraTicket(config: JiraConfig, d: TicketData, tracker: Tracker)
    returns (r: Result<TicketResponse, Thrown>)
    requires tracker.Valid()
    modifies tracker
    ensures tracker.Valid()
    ensures !ConfigPresent(config) ==>
      r == Failure(ErrorValue(ConfigMissing)) && tracker.requests == old(tracker.requests)
      && tracker.replies == old(tracker.replies)
    ensures ConfigPresent(config) ==>
      tracker.requests == old(tracker.requests) + [PayloadFor(config.projectKey.value, d)]
      && |tracker.replies| > 0
      && tracker.replies == old(tracker.replies) + [Last(tracker.replies)]
      && r == ResponseFor(config.domain.value, Last(tracker.replies))
  {
    if !ConfigPresent(config) {
      return Failure(ErrorValue(ConfigMissing));
    }
    var description := BuildDescription(d);
    var payload := IssuePayload(config.projectKey.value, BuildSummary(d), description, "Task",
                                GetPriority(d.environment), BuildLabels(d));
    var reply := tracker.Post(payload);
    r := ResponseFor(config.domain.value, reply);
  }
}
