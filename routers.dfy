/**
 * The ticket endpoints (server/routers.ts): `create` files one request, and
 * `createMultiple` files a batch of requests one after another. Each item goes
 * to the tracker and then to the local store. The first failure ends the batch,
 * and nothing already created is undone.
 */
module Routers {
  import opened Wrappers
  import opened Jira

  /** One requested technology in a batch; its technology-specific fields are all optional. */
  datatype TechnologyInput = TechnologyInput(
    technology: string,
    solutionCode: string,
    environment: string,
    cpu: Option<int>,
    ram: Option<int>,
    dbEngine: Option<string>,
    diskSize: Option<int>,
    storageType: Option<string>,
    storageQuota: Option<int>)

  /** A batch: the requester's squad and email, shared by every requested technology. */
  datatype BatchInput = BatchInput(squad: string, email: string, technologies: seq<TechnologyInput>)

  /** The schema rule for one item: technology, solution code and environment are non-empty. */
  predicate ItemAccepted(t: TechnologyInput) {
    t.technology != "" && t.solutionCode != "" && t.environment != ""
  }

  /**
   * The schema rules for a batch. `isEmail` stands for the schema's email-format
   * check. Technology-specific fields are not checked.
   */
  predicate BatchAccepted(input: BatchInput, isEmail: string -> bool) {
    && input.squad != ""
    && isEmail(input.email)
    && |input.technologies| >= 1
    && forall i :: 0 <= i < |input.technologies| ==> ItemAccepted(input.technologies[i])
  }

  /** The schema rules for a single request. */
  predicate SingleAccepted(d: TicketData, isEmail: string -> bool) {
    d.technology != "" && d.solutionCode != "" && d.environment != "" && d.squad != "" && isEmail(d.email)
  }

  /** The item part of ticket data: everything but the squad and the email. */
  function ItemOf(d: TicketData): TechnologyInput {
    TechnologyInput(d.technology, d.solutionCode, d.environment, d.cpu, d.ram,
                    d.dbEngine, d.diskSize, d.storageType, d.storageQuota)
  }

  /** The ticket data sent for one item: its own fields plus the batch's squad and email, nothing else. */
  function TicketDataFor(squad: string, email: string, t: TechnologyInput): (d: TicketData)
    ensures ItemOf(d) == t && d.squad == squad && d.email == email
  {
    TicketData(t.technology, t.solutionCode, t.environment, squad, email,
               t.cpu, t.ram, t.dbEngine, t.diskSize, t.storageType, t.storageQuota)
  }

  /** Ticket data is determined by its item part, its squad and its email. */
  lemma TicketDataRoundTrip(d: TicketData)
    ensures TicketDataFor(d.squad, d.email, ItemOf(d)) == d
  {
  }

  /** The ticket data of item `i` of a batch. */
  function ItemData(input: BatchInput, i: nat): TicketData
    requires i < |input.technologies|
  {
    TicketDataFor(input.squad, input.email, input.technologies[i])
  }

  /** A stored ticket record (the `jira_tickets` table, without the store's own id and timestamps). */
  datatype TicketRecord = TicketRecord(
    jiraKey: string,
    jiraUrl: string,
    technology: string,
    solutionCode: string,
    environment: string,
    squad: string,
    email: string,
    cpu: Option<int>,
    ram: Option<int>,
    dbEngine: Option<string>,
    diskSize: Option<int>,
    storageType: Option<string>,
    storageQuota: Option<int>,
    createdBy: Option<int>)

  /** The request fields a record holds. */
  function DataOf(rec: TicketRecord): TicketData {
    TicketData(rec.technology, rec.solutionCode, rec.environment, rec.squad, rec.email,
               rec.cpu, rec.ram, rec.dbEngine, rec.diskSize, rec.storageType, rec.storageQuota)
  }

  /** The record written for a created issue: the tracker's key and URL, every request field unchanged, no creator. */
  function RecordFor(d: TicketData, response: TicketResponse): (rec: TicketRecord)
    ensures rec.jiraKey == response.key && rec.jiraUrl == response.url
    ensures DataOf(rec) == d && rec.createdBy == None
  {
    TicketRecord(response.key, response.url, d.technology, d.solutionCode, d.environment, d.squad, d.email,
                 d.cpu, d.ram, d.dbEngine, d.diskSize, d.storageType, d.storageQuota, None)
  }

  predicate HasKey(records: seq<TicketRecord>, key: string) {
    exists i :: 0 <= i < |records| && records[i].jiraKey == key
  }

  /** No two records share a tracker key. */
  predicate KeysUnique(records: seq<TicketRecord>) {
    forall i, j :: 0 <= i < j < |records| ==> records[i].jiraKey != records[j].jiraKey
  }

  /**
   * The relational store of created tickets. A write may fail at any time, and it
   * always fails when the key is already stored. A failed write changes nothing.
   */
  class TicketStore {
    var records: seq<TicketRecord>
    /** What each failed write threw, in order. */
    var errors: seq<Thrown>

    ghost predicate Valid()
      reads this
    {
      KeysUnique(records)
    }

    constructor ()
      ensures Valid() && records == [] && errors == []
    {
      records := [];
      errors := [];
    }

    method Insert(rec: TicketRecord) returns (failure: Option<Thrown>)
      requires Valid()
      modifies this
      ensures Valid()
      ensures failure.None? ==> records == old(records) + [rec] && errors == old(errors)
      ensures failure.Some? ==> records == old(records) && errors == old(errors) + [failure.value]
      ensures HasKey(old(records), rec.jiraKey) ==> failure.Some?
    {
      var written: bool :| true;
      if HasKey(records, rec.jiraKey) || !written {
        var thrown: Thrown :| true;
        errors := errors + [thrown];
        return Some(thrown);
      }
      records := records + [rec];
      failure := None;
    }
  }

  /** The error a failed procedure reports to its caller. */
  datatype TrpcError = TrpcError(code: string, message: string)

  const SingleFallback: string := "Erreur lors de la création du ticket Jira"
  const BatchFallback: string := "Erreur lors de la création des tickets Jira"

  /** Rethrows any failure as an internal error carrying the `Error`'s message, or `fallback` for other values. */
  function InternalError(thrown: Thrown, fallback: string): (e: TrpcError)
    ensures e.code == "INTERNAL_SERVER_ERROR"
    ensures thrown.ErrorValue? ==> e.message == thrown.message
    ensures thrown.OtherValue? ==> e.message == fallback
  {
    TrpcError("INTERNAL_SERVER_ERROR", if thrown.ErrorValue? then thrown.message else fallback)
  }

  /**
   * The two effects each endpoint performs for one request: the tracker call and,
   * only when it returned a key, the record write. Whatever is thrown comes back
   * as the failure.
   */
  method FileTicket(config: JiraConfig, d: TicketData, tracker: Tracker, store: TicketStore)
    returns (r: Result<TicketResponse, Thrown>)
    requires tracker.Valid() && store.Valid()
    modifies tracker, store
    ensures tracker.Valid() && store.Valid()
    ensures !ConfigPresent(config) ==>
      && r == Failure(ErrorValue(ConfigMissing))
      && tracker.requests == old(tracker.requests) && tracker.replies == old(tracker.replies)
      && store.records == old(store.records) && store.errors == old(store.errors)
    ensures ConfigPresent(config) ==>
      && |tracker.replies| > 0
      && tracker.requests == old(tracker.requests) + [PayloadFor(config.projectKey.value, d)]
      && tracker.replies == old(tracker.replies) + [Last(tracker.replies)]
    ensures ConfigPresent(config) && Last(tracker.replies).Failed? ==>
      && r == Failure(Last(tracker.replies).thrown)
      && store.records == old(store.records) && store.errors == old(store.errors)
    ensures ConfigPresent(config) && Last(tracker.replies).Created? ==>
      var response := ResponseOf(config.domain.value, Last(tracker.replies).key);
      || (&& r == Success(response)
          && store.records == old(store.records) + [RecordFor(d, response)]
          && store.errors == old(store.errors))
      || (&& |store.errors| > 0
          && store.errors == old(store.errors) + [Last(store.errors)]
          && r == Failure(Last(store.errors))
          && store.records == old(store.records))
  {
    r := CreateJiraTicket(config, d, tracker);
    if r.Success? {
      var failure := store.Insert(RecordFor(d, r.value));
      if failure.Some? {
        r := Failure(failure.value);
      }
    }
  }

  /** The answer of `create`. */
  datatype CreateResult = CreateResult(success: bool, key: string, url: string)

  /**
   * `create`: files one request, and answers with the tracker's key and URL,
   * or with an internal error carrying what was thrown.
   */
  method Create(ghost isEmail: string -> bool, input: TicketData, config: JiraConfig,
                tracker: Tracker, store: TicketStore)
    returns (r: Result<CreateResult, TrpcError>)
    requires SingleAccepted(input, isEmail)
    requires tracker.Valid() && store.Valid()
    modifies tracker, store
    ensures tracker.Valid() && store.Valid()
    ensures !ConfigPresent(config) ==>
      && r == Failure(InternalError(ErrorValue(ConfigMissing), SingleFallback))
      && tracker.requests == old(tracker.requests) && tracker.replies == old(tracker.replies)
      && store.records == old(store.records) && store.errors == old(store.errors)
    ensures ConfigPresent(config) ==>
      && |tracker.replies| > 0
      && tracker.requests == old(tracker.requests) + [PayloadFor(config.projectKey.value, input)]
      && tracker.replies == old(tracker.replies) + [Last(tracker.replies)]
    ensures ConfigPresent(config) && Last(tracker.replies).Failed? ==>
      && r == Failure(InternalError(Last(tracker.replies).thrown, SingleFallback))
      && store.records == old(store.records) && store.errors == old(store.errors)
    ensures ConfigPresent(config) && Last(tracker.replies).Created? ==>
      var response := ResponseOf(config.domain.value, Last(tracker.replies).key);
      || (&& r == Success(CreateResult(true, response.key, response.url))
          && store.records == old(store.records) + [RecordFor(input, response)]
          && store.errors == old(store.errors))
      || (&& |store.errors| > 0
          && store.errors == old(store.errors) + [Last(store.errors)]
          && r == Failure(InternalError(Last(store.errors), SingleFallback))
          && store.records == old(store.records))
  {
    var response := FileTicket(config, input, tracker, store);
    if response.Failure? {
      return Failure(InternalError(response.error, SingleFallback));
    }
    r := Success(CreateResult(true, response.value.key, response.value.url));
  }

  /** Item j of `input` was sent as request `r0 + j`, answered with a key, and stored as record `s0 + j`. */
  ghost predicate ItemProcessed(projectKey: string, domain: string, input: BatchInput,
                                requests: seq<IssuePayload>, replies: seq<Reply>, records: seq<TicketRecord>,
                                r0: nat, s0: nat, j: nat)
    requires j < |input.technologies| && r0 + j < |requests| && r0 + j < |replies| && s0 + j < |records|
  {
    && requests[r0 + j] == PayloadFor(projectKey, ItemData(input, j))
    && replies[r0 + j].Created?
    && records[s0 + j] == RecordFor(ItemData(input, j), ResponseOf(domain, replies[r0 + j].key))
  }

  /** The first `k` items of `input` went all the way through, in order. */
  ghost predicate Processed(projectKey: string, domain: string, input: BatchInput,
                            requests: seq<IssuePayload>, replies: seq<Reply>, records: seq<TicketRecord>,
                            r0: nat, s0: nat, k: nat)
  {
    && k <= |input.technologies| && r0 + k <= |requests| && r0 + k <= |replies| && s0 + k <= |records|
    && forall j :: 0 <= j < k ==> ItemProcessed(projectKey, domain, input, requests, replies, records, r0, s0, j)
  }

  /** Growing the logs does not undo what was processed. */
  lemma ProcessedKept(projectKey: string, domain: string, input: BatchInput,
                      requests: seq<IssuePayload>, replies: seq<Reply>, records: seq<TicketRecord>,
                      requests': seq<IssuePayload>, replies': seq<Reply>, records': seq<TicketRecord>,
                      r0: nat, s0: nat, k: nat)
    requires Processed(projectKey, domain, input, requests, replies, records, r0, s0, k)
    requires requests <= requests' && replies <= replies' && records <= records'
    ensures Processed(projectKey, domain, input, requests', replies', records', r0, s0, k)
  {
    forall j | 0 <= j < k
      ensures ItemProcessed(projectKey, domain, input, requests', replies', records', r0, s0, j)
    {
      assert ItemProcessed(projectKey, domain, input, requests, replies, records, r0, s0, j);
    }
  }

  /**
   * The answers of a batch whose items were all processed carry pairwise
   * distinct keys: each key is the key of a stored record, and stored keys are unique.
   */
  lemma {:induction false} AnswerKeysDistinct(projectKey: string, domain: string, input: BatchInput,
                           requests: seq<IssuePayload>, replies: seq<Reply>, records: seq<TicketRecord>,
                           r0: nat, s0: nat, answers: seq<TicketResponse>)
    requires Processed(projectKey, domain, input, requests, replies, records, r0, s0, |answers|)
    requires KeysUnique(records)
    requires forall j :: 0 <= j < |answers| ==> replies[r0 + j] == Created(answers[j].key)
    ensures forall i, j :: 0 <= i < j < |answers| ==> answers[i].key != answers[j].key
  {
    forall i, j | 0 <= i < j < |answers|
      ensures answers[i].key != answers[j].key
    {
      assert ItemProcessed(projectKey, domain, input, requests, replies, records, r0, s0, i);
      assert ItemProcessed(projectKey, domain, input, requests, replies, records, r0, s0, j);
      assert records[s0 + i].jiraKey == answers[i].key;
      assert records[s0 + j].jiraKey == answers[j].key;
    }
  }

  /** One more item sent, answered with a key and stored extends what was processed by one. */
  lemma {:induction false} ProcessedGrows(projectKey: string, domain: string, input: BatchInput,
                        requests: seq<IssuePayload>, replies: seq<Reply>, records: seq<TicketRecord>,
                        r0: nat, s0: nat, k: nat, key: string)
    requires Processed(projectKey, domain, input, requests, replies, records, r0, s0, k)
    requires |requests| == |replies| == r0 + k && |records| == s0 + k && k < |input.technologies|
    ensures Processed(projectKey, domain, input,
                      requests + [PayloadFor(projectKey, ItemData(input, k))],
                      replies + [Created(key)],
                      records + [RecordFor(ItemData(input, k), ResponseOf(domain, key))],
                      r0, s0, k + 1)
  {
    var requests' := requests + [PayloadFor(projectKey, ItemData(input, k))];
    var replies' := replies + [Created(key)];
    var records' := records + [RecordFor(ItemData(input, k), ResponseOf(domain, key))];
    ProcessedKept(projectKey, domain, input, requests, replies, records, requests', replies', records', r0, s0, k);
    assert ItemProcessed(projectKey, domain, input, requests', replies', records', r0, s0, k);
  }

  /**
   * `createMultiple`: files every item of the batch in order. Each item is sent
   * to the tracker, then its record is written, and only then is the next item
   * sent. On success the answer holds one key and URL per item, in input order.
   * The first failure ends the batch, with no partial answer, and leaves what
   * was already created in place.
   */
  method CreateMultiple(ghost isEmail: string -> bool, input: BatchInput, config: JiraConfig,
                        tracker: Tracker, store: TicketStore)
    returns (r: Result<seq<TicketResponse>, TrpcError>)
    requires BatchAccepted(input, isEmail)
    requires tracker.Valid() && store.Valid()
    modifies tracker, store
    ensures tracker.Valid() && store.Valid()
    ensures !ConfigPresent(config) ==>
      && r == Failure(InternalError(ErrorValue(ConfigMissing), BatchFallback))
      && tracker.requests == old(tracker.requests) && tracker.replies == old(tracker.replies)
      && store.records == old(store.records) && store.errors == old(store.errors)
    ensures ConfigPresent(config) ==> BatchFiled(config, input, r, tracker, store)
  {
    if !ConfigPresent(config) {
      var response := FileTicket(config, ItemData(input, 0), tracker, store);
      return Failure(InternalError(response.error, BatchFallback));
    }
    r := FileBatch(input, config, tracker, store);
  }

  /**
   * What a batch run with the configuration present leaves behind: the logs
   * only grew; the items filed are a prefix of the batch, each sent, answered
   * with a key and stored in turn; on success that prefix is the whole batch
   * and the answer lists the keys and browse URLs in order; on failure one
   * more item was sent, and the error is the tracker's or the store's.
   */
  twostate predicate BatchFiled(config: JiraConfig, input: BatchInput, new r: Result<seq<TicketResponse>, TrpcError>,
                                tracker: Tracker, store: TicketStore)
    requires ConfigPresent(config)
    reads tracker, store
  {
    && old(tracker.requests) <= tracker.requests && old(tracker.replies) <= tracker.replies
    && old(store.records) <= store.records && old(store.errors) <= store.errors
    && Processed(config.projectKey.value, config.domain.value, input,
                 tracker.requests, tracker.replies, store.records,
                 |old(tracker.requests)|, |old(store.records)|, |store.records| - |old(store.records)|)
    && (r.Success? ==>
         var n := |input.technologies|;
         && |store.records| == |old(store.records)| + n
         && |tracker.requests| == |old(tracker.requests)| + n
         && |tracker.replies| == |old(tracker.replies)| + n
         && store.errors == old(store.errors)
         && |r.value| == n
         && forall j :: 0 <= j < n ==>
              && tracker.replies[|old(tracker.replies)| + j] == Created(r.value[j].key)
              && r.value[j].url == BrowseUrl(config.domain.value, r.value[j].key))
    && (r.Failure? ==>
         var k := |store.records| - |old(store.records)|;
         && k < |input.technologies|
         && |tracker.requests| == |tracker.replies| == |old(tracker.requests)| + k + 1
         && Last(tracker.requests) == PayloadFor(config.projectKey.value, ItemData(input, k))
         && (Last(tracker.replies).Failed? ==>
               && r.error == InternalError(Last(tracker.replies).thrown, BatchFallback)
               && store.errors == old(store.errors))
         && (Last(tracker.replies).Created? ==>
               && |store.errors| > 0
               && store.errors == old(store.errors) + [Last(store.errors)]
               && r.error == InternalError(Last(store.errors), BatchFallback)))
  }

  /**
   * One turn of the loop of `createMultiple`: item `i` is filed after the first
   * `i` items went through. On success the processed prefix grows by one item;
   * on failure it stays as it was, and the failure is the tracker's or the store's.
   */
  method FileItem(input: BatchInput, i: nat, config: JiraConfig, tracker: Tracker, store: TicketStore,
                  ghost r0: nat, ghost s0: nat)
    returns (response: Result<TicketResponse, Thrown>)
    requires ConfigPresent(config) && i < |input.technologies|
    requires tracker.Valid() && store.Valid()
    requires |tracker.requests| == r0 + i && |store.records| == s0 + i
    requires Processed(config.projectKey.value, config.domain.value, input,
                       tracker.requests, tracker.replies, store.records, r0, s0, i)
    modifies tracker, store
    ensures tracker.Valid() && store.Valid()
    ensures old(tracker.requests) <= tracker.requests && old(tracker.replies) <= tracker.replies
    ensures old(store.records) <= store.records
    ensures response.Success? ==>
      && |tracker.requests| == r0 + i + 1 && |store.records| == s0 + i + 1
      && store.errors == old(store.errors)
      && tracker.replies[r0 + i] == Created(response.value.key)
      && response.value.url == BrowseUrl(config.domain.value, response.value.key)
      && Processed(config.projectKey.value, config.domain.value, input,
                   tracker.requests, tracker.replies, store.records, r0, s0, i + 1)
    ensures response.Failure? ==>
      && |store.records| == s0 + i
      && |tracker.requests| == |tracker.replies| == r0 + i + 1
      && Last(tracker.requests) == PayloadFor(config.projectKey.value, ItemData(input, i))
      && Processed(config.projectKey.value, config.domain.value, input,
                   tracker.requests, tracker.replies, store.records, r0, s0, i)
      && (Last(tracker.replies).Failed? ==>
            response.error == Last(tracker.replies).thrown && store.errors == old(store.errors))
      && (Last(tracker.replies).Created? ==>
            && |store.errors| > 0
            && store.errors == old(store.errors) + [Last(store.errors)]
            && response.error == Last(store.errors))
  {
    ghost var requests, replies, records := tracker.requests, tracker.replies, store.records;
    response := FileTicket(config, ItemData(input, i), tracker, store);
    if response.Failure? {
      ProcessedKept(config.projectKey.value, config.domain.value, input, requests, replies, records,
                    tracker.requests, tracker.replies, store.records, r0, s0, i);
    } else {
      ProcessedGrows(config.projectKey.value, config.domain.value, input, requests, replies, records,
                     r0, s0, i, response.value.key);
    }
  }

  /** The loop of `createMultiple`, once the configuration is known to be present. */
  method FileBatch(input: BatchInput, config: JiraConfig, tracker: Tracker, store: TicketStore)
    returns (r: Result<seq<TicketResponse>, TrpcError>)
    requires ConfigPresent(config) && |input.technologies| >= 1
    requires tracker.Valid() && store.Valid()
    modifies tracker, store
    ensures tracker.Valid() && store.Valid()
    ensures BatchFiled(config, input, r, tracker, store)
  {
    ghost var r0, s0 := |tracker.requests|, |store.records|;
    var results: seq<TicketResponse> := [];
    var i := 0;
    while i < |input.technologies|
      invariant 0 <= i <= |input.technologies| && |results| == i
      invariant tracker.Valid() && store.Valid()
      invariant |tracker.requests| == r0 + i && |store.records| == s0 + i
      invariant old(tracker.requests) <= tracker.requests && old(tracker.replies) <= tracker.replies
      invariant old(store.records) <= store.records && store.errors == old(store.errors)
      invariant Processed(config.projectKey.value, config.domain.value, input,
                          tracker.requests, tracker.replies, store.records, r0, s0, i)
      invariant forall j :: 0 <= j < i ==>
        && tracker.replies[r0 + j] == Created(results[j].key)
        && results[j].url == BrowseUrl(config.domain.value, results[j].key)
    {
      var response := FileItem(input, i, config, tracker, store, r0, s0);
      if response.Failure? {
        assert |store.records| - |old(store.records)| == i;
        return Failure(InternalError(response.error, BatchFallback));
      }
      results := results + [response.value];
      i := i + 1;
    }
    assert |store.records| - |old(store.records)| == |input.technologies|;
    r := Success(results);
  }
}
