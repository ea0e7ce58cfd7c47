/**
 * The request form (client/src/pages/TicketForm.tsx): the requester's squad
 * and email, and a list of technology entries that the handlers edit (add,
 * remove, change one field, toggle an environment). Submitting checks the
 * entries in order and either shows the first problem found or sends the
 * batch to `createMultiple` without the entries' ids.
 */
module TicketFormPage {
  import opened Wrappers
  import opened Jira
  import opened Routers

  /** One technology entry of the form. Ids are the numbers the form writes as decimal strings. */
  datatype TechForm = TechForm(
    id: nat,
    technology: string,
    solutionCode: string,
    environment: string,
    cpu: Option<int>,
    ram: Option<int>,
    dbEngine: Option<string>,
    diskSize: Option<int>,
    storageType: Option<string>,
    storageQuota: Option<int>)

  /** A new entry: only the id is set. */
  function BlankEntry(id: nat): TechForm {
    TechForm(id, "", "", "", None, None, None, None, None, None)
  }

  // ---------------------------------------------------------------------------
  // Entry ids
  // ---------------------------------------------------------------------------

  /** No two entries share an id. */
  predicate UniqueIds(ts: seq<TechForm>) {
    forall i, j :: 0 <= i < j < |ts| ==> ts[i].id != ts[j].id
  }

  predicate HasId(ts: seq<TechForm>, id: nat) {
    exists i :: 0 <= i < |ts| && ts[i].id == id
  }

  /** The largest id of the list, and 0 for an empty list. */
  function MaxId(ts: seq<TechForm>): (m: nat)
    ensures forall i :: 0 <= i < |ts| ==> ts[i].id <= m
    ensures m == 0 || HasId(ts, m)
  {
    if ts == [] then 0
    else
      var rest := MaxId(ts[1..]);
      if ts[0].id >= rest then ts[0].id
      else
        var k :| 0 <= k < |ts[1..]| && ts[1..][k].id == rest;
        assert ts[k + 1].id == rest;
        rest
  }

  /** The id given to an added entry: one more than the largest id, or than 0. */
  function NextId(ts: seq<TechForm>): (id: nat)
    ensures id >= 1 && !HasId(ts, id)
  {
    MaxId(ts) + 1
  }

  // ---------------------------------------------------------------------------
  // Removing an entry
  // ---------------------------------------------------------------------------

  /** The entries whose id is not `id`, in their order. */
  function WithoutId(ts: seq<TechForm>, id: nat): (r: seq<TechForm>)
    ensures |r| <= |ts|
  {
    if ts == [] then []
    else (if ts[0].id == id then [] else [ts[0]]) + WithoutId(ts[1..], id)
  }

  /** An entry survives removal exactly when it was there and does not have the removed id. */
  lemma {:induction false} WithoutIdMembers(ts: seq<TechForm>, id: nat)
    ensures forall t :: t in WithoutId(ts, id) <==> t in ts && t.id != id
  {
    if ts != [] {
      WithoutIdMembers(ts[1..], id);
      assert ts == [ts[0]] + ts[1..];
    }
  }

  lemma HasIdTail(ts: seq<TechForm>, id: nat)
    requires ts != []
    ensures HasId(ts, id) <==> ts[0].id == id || HasId(ts[1..], id)
  {
    if HasId(ts, id) && ts[0].id != id {
      var k :| 0 <= k < |ts| && ts[k].id == id;
      assert ts[1..][k - 1].id == id;
    }
    if HasId(ts[1..], id) {
      var k :| 0 <= k < |ts[1..]| && ts[1..][k].id == id;
      assert ts[k + 1].id == id;
    }
  }

  /** The tail of a list with unique ids has unique ids, none of them the head's. */
  lemma UniqueTail(ts: seq<TechForm>)
    requires UniqueIds(ts) && ts != []
    ensures UniqueIds(ts[1..]) && !HasId(ts[1..], ts[0].id)
  {
    forall i, j | 0 <= i < j < |ts[1..]|
      ensures ts[1..][i].id != ts[1..][j].id
    {
      assert ts[1..][i] == ts[i + 1] && ts[1..][j] == ts[j + 1];
    }
  }

  lemma ConsUnique(t: TechForm, rest: seq<TechForm>)
    requires UniqueIds(rest) && !HasId(rest, t.id)
    ensures UniqueIds([t] + rest)
  {
    var r := [t] + rest;
    forall i, j | 0 <= i < j < |r|
      ensures r[i].id != r[j].id
    {
      assert r[j] == rest[j - 1];
      if i > 0 {
        assert r[i] == rest[i - 1];
      }
    }
  }

  /** Removing entries brings in no new id. */
  lemma WithoutIdHasId(ts: seq<TechForm>, id: nat, x: nat)
    requires HasId(WithoutId(ts, id), x)
    ensures HasId(ts, x) && x != id
  {
    var r := WithoutId(ts, id);
    WithoutIdMembers(ts, id);
    var k :| 0 <= k < |r| && r[k].id == x;
    assert r[k] in r;
    var j :| 0 <= j < |ts| && ts[j] == r[k];
  }

  /** Removing entries keeps ids unique. */
  lemma {:induction false} RemovingKeepsIdsUnique(ts: seq<TechForm>, id: nat)
    requires UniqueIds(ts)
    ensures UniqueIds(WithoutId(ts, id))
  {
    if ts != [] {
      UniqueTail(ts);
      RemovingKeepsIdsUnique(ts[1..], id);
      if ts[0].id != id {
        var rest := WithoutId(ts[1..], id);
        if HasId(rest, ts[0].id) {
          WithoutIdHasId(ts[1..], id, ts[0].id);
        }
        ConsUnique(ts[0], rest);
      }
    }
  }

  /** With unique ids, removing an id drops one entry when some entry has it, and none otherwise. */
  lemma {:induction false} RemovingCount(ts: seq<TechForm>, id: nat)
    requires UniqueIds(ts)
    ensures HasId(ts, id) ==> |WithoutId(ts, id)| == |ts| - 1
    ensures !HasId(ts, id) ==> WithoutId(ts, id) == ts
  {
    if ts != [] {
      UniqueTail(ts);
      HasIdTail(ts, id);
      RemovingCount(ts[1..], id);
      if ts[0].id != id {
        assert ts == [ts[0]] + ts[1..];
      }
    }
  }

  // ---------------------------------------------------------------------------
  // Changing one field of an entry
  // ---------------------------------------------------------------------------

  /** The fields a change handler can name. */
  datatype Field =
    | Technology | SolutionCode | Environment
    | Cpu | Ram | DbEngine | DiskSize | StorageType | StorageQuota

  /** A field's value: text, optional text, or an optional number. */
  datatype FieldValue = Text(text: string) | OptionalText(optionalText: Option<string>) | Number(number: Option<int>)

  /** The value kinds the form's inputs hand to each field. */
  predicate Fits(f: Field, v: FieldValue) {
    match f
    case Technology | SolutionCode | Environment => v.Text?
    case DbEngine | StorageType => v.OptionalText?
    case Cpu | Ram | DiskSize | StorageQuota => v.Number?
  }

  function Get(t: TechForm, f: Field): (v: FieldValue)
    ensures Fits(f, v)
  {
    match f
    case Technology => Text(t.technology)
    case SolutionCode => Text(t.solutionCode)
    case Environment => Text(t.environment)
    case Cpu => Number(t.cpu)
    case Ram => Number(t.ram)
    case DbEngine => OptionalText(t.dbEngine)
    case DiskSize => Number(t.diskSize)
    case StorageType => OptionalText(t.storageType)
    case StorageQuota => Number(t.storageQuota)
  }

  /** An entry is its id and its nine fields. */
  lemma {:induction false} EntryDetermined(a: TechForm, b: TechForm)
    requires a.id == b.id
    requires forall f :: Get(a, f) == Get(b, f)
    ensures a == b
  {
    assert Get(a, Technology) == Get(b, Technology) && Get(a, SolutionCode) == Get(b, SolutionCode);
    assert Get(a, Environment) == Get(b, Environment) && Get(a, Cpu) == Get(b, Cpu) && Get(a, Ram) == Get(b, Ram);
    assert Get(a, DbEngine) == Get(b, DbEngine) && Get(a, DiskSize) == Get(b, DiskSize);
    assert Get(a, StorageType) == Get(b, StorageType) && Get(a, StorageQuota) == Get(b, StorageQuota);
  }

  /** The entry with field `f` replaced by `v`. */
  function SetField(t: TechForm, f: Field, v: FieldValue): (r: TechForm)
    requires Fits(f, v)
    ensures r.id == t.id && Get(r, f) == v
    ensures forall g :: g != f ==> Get(r, g) == Get(t, g)
  {
    match f
    case Technology => t.(technology := v.text)
    case SolutionCode => t.(solutionCode := v.text)
    case Environment => t.(environment := v.text)
    case Cpu => t.(cpu := v.number)
    case Ram => t.(ram := v.number)
    case DbEngine => t.(dbEngine := v.optionalText)
    case DiskSize => t.(diskSize := v.number)
    case StorageType => t.(storageType := v.optionalText)
    case StorageQuota => t.(storageQuota := v.number)
  }

  /** Every entry with id `id` gets field `f` set to `v`; the list keeps its length, order and ids. */
  function ChangeField(ts: seq<TechForm>, id: nat, f: Field, v: FieldValue): (r: seq<TechForm>)
    requires Fits(f, v)
    ensures |r| == |ts|
    ensures forall i :: 0 <= i < |ts| ==> r[i].id == ts[i].id
    ensures forall i :: 0 <= i < |ts| && ts[i].id != id ==> r[i] == ts[i]
    ensures forall i :: 0 <= i < |ts| && ts[i].id == id ==>
              Get(r[i], f) == v && forall g :: g != f ==> Get(r[i], g) == Get(ts[i], g)
  {
    if ts == [] then []
    else [if ts[0].id == id then SetField(ts[0], f, v) else ts[0]] + ChangeField(ts[1..], id, f, v)
  }

  /** A change keeps the ids unique. */
  lemma ChangeKeepsIdsUnique(ts: seq<TechForm>, id: nat, f: Field, v: FieldValue)
    requires Fits(f, v) && UniqueIds(ts)
    ensures UniqueIds(ChangeField(ts, id, f, v))
  {
  }

  /** Setting a field to the value it already has changes nothing. */
  lemma {:induction false} ChangeToSameValue(ts: seq<TechForm>, id: nat, f: Field, v: FieldValue)
    requires Fits(f, v)
    requires forall i :: 0 <= i < |ts| && ts[i].id == id ==> Get(ts[i], f) == v
    ensures ChangeField(ts, id, f, v) == ts
  {
    var r := ChangeField(ts, id, f, v);
    forall i | 0 <= i < |ts|
      ensures r[i] == ts[i]
    {
      if ts[i].id == id {
        forall g
          ensures Get(r[i], g) == Get(ts[i], g)
        {
        }
        EntryDetermined(r[i], ts[i]);
      }
    }
  }

  // ---------------------------------------------------------------------------
  // The environment multi-select, kept as a '+'-joined string
  // ---------------------------------------------------------------------------

  /** Splitting at every '+', as JavaScript's `split("+")` does: empty parts kept, at least one part. */
  function SplitOnPlus(s: string): (parts: seq<string>)
    ensures |parts| >= 1
    ensures forall i :: 0 <= i < |parts| ==> '+' !in parts[i]
  {
    if s == [] then [""]
    else
      var rest := SplitOnPlus(s[1..]);
      if s[0] == '+' then [""] + rest else [[s[0]] + rest[0]] + rest[1..]
  }

  /** Joining with '+', as JavaScript's `join("+")` does: the empty list gives the empty string. */
  function JoinWithPlus(parts: seq<string>): string {
    if parts == [] then ""
    else if |parts| == 1 then parts[0]
    else parts[0] + "+" + JoinWithPlus(parts[1..])
  }

  lemma {:induction false} JoinSplit(s: string)
    ensures JoinWithPlus(SplitOnPlus(s)) == s
  {
    if s != [] {
      var rest := SplitOnPlus(s[1..]);
      JoinSplit(s[1..]);
      if s[0] == '+' {
        assert ([""] + rest)[1..] == rest;
        assert s == [s[0]] + s[1..];
      } else {
        var parts := [[s[0]] + rest[0]] + rest[1..];
        if |rest| == 1 {
          assert s == [s[0]] + rest[0];
        } else {
          assert parts[1..] == rest[1..];
          assert JoinWithPlus(rest) == rest[0] + "+" + JoinWithPlus(rest[1..]);
          assert s == [s[0]] + s[1..];
        }
      }
    }
  }

  lemma {:induction false} SplitJoin(parts: seq<string>)
    requires |parts| >= 1
    requires forall i :: 0 <= i < |parts| ==> '+' !in parts[i]
    ensures SplitOnPlus(JoinWithPlus(parts)) == parts
  {
    if |parts| == 1 {
      SplitPlain(parts[0]);
    } else {
      SplitJoin(parts[1..]);
      SplitPrefixed(parts[0], JoinWithPlus(parts[1..]));
      assert parts == [parts[0]] + parts[1..];
    }
  }

  /** A text without '+' is one part. */
  lemma {:induction false} SplitPlain(s: string)
    requires '+' !in s
    ensures SplitOnPlus(s) == [s]
  {
    if s != [] {
      SplitPlain(s[1..]);
      assert s == [s[0]] + s[1..];
    }
  }

  /** Splitting `a + "+" + b`, with no '+' in `a`: `a`, then the parts of `b`. */
  lemma {:induction false} SplitPrefixed(a: string, b: string)
    requires '+' !in a
    ensures SplitOnPlus(a + "+" + b) == [a] + SplitOnPlus(b)
  {
    if a == [] {
      assert ("" + "+" + b)[1..] == b;
    } else {
      assert (a + "+" + b)[1..] == a[1..] + "+" + b;
      SplitPrefixed(a[1..], b);
      assert a == [a[0]] + a[1..];
    }
  }

  /** The environments an entry has selected; the empty string selects none. */
  function SelectedEnvironments(environment: string): (envs: seq<string>)
    ensures environment != "" ==> JoinWithPlus(envs) == environment
    ensures environment == "" <==> envs == []
    ensures forall i :: 0 <= i < |envs| ==> '+' !in envs[i]
  {
    if environment == "" then [] else JoinSplit(environment); SplitOnPlus(environment)
  }

  /** Every occurrence of `env` removed, order kept. */
  function RemoveAll(envs: seq<string>, env: string): (r: seq<string>)
    ensures forall e :: e in r <==> e in envs && e != env
  {
    if envs == [] then []
    else (if envs[0] == env then [] else [envs[0]]) + RemoveAll(envs[1..], env)
  }

  /** The list of environments after a click on `env`: removed if present, appended if not. */
  function Toggled(envs: seq<string>, env: string): (r: seq<string>)
    ensures env in r <==> env !in envs
    ensures forall e :: e != env ==> (e in r <==> e in envs)
  {
    if env in envs then RemoveAll(envs, env) else envs + [env]
  }

  /** The environment string after a click on `env`. */
  function ToggleEnvironment(environment: string, env: string): string {
    JoinWithPlus(Toggled(SelectedEnvironments(environment), env))
  }

  lemma {:induction false} RemoveAbsent(envs: seq<string>, env: string)
    requires env !in envs
    ensures RemoveAll(envs, env) == envs
  {
    if envs != [] {
      RemoveAbsent(envs[1..], env);
      assert envs == [envs[0]] + envs[1..];
    }
  }

  /** A list of parts without '+', rendered and selected again, is the same list, unless it is the single empty part. */
  lemma SelectJoined(parts: seq<string>)
    requires forall i :: 0 <= i < |parts| ==> '+' !in parts[i]
    requires parts != [""]
    ensures SelectedEnvironments(JoinWithPlus(parts)) == parts
  {
    if parts != [] {
      if |parts| > 1 {
        assert JoinWithPlus(parts) == parts[0] + "+" + JoinWithPlus(parts[1..]);
      }
      SplitJoin(parts);
    }
  }

  /** Clicking a selected environment deselects it everywhere, keeping the others in order. */
  lemma ToggleRemoves(environment: string, env: string)
    requires env in SelectedEnvironments(environment)
    requires "" !in SelectedEnvironments(environment)
    ensures SelectedEnvironments(ToggleEnvironment(environment, env))
            == RemoveAll(SelectedEnvironments(environment), env)
  {
    var kept := RemoveAll(SelectedEnvironments(environment), env);
    assert "" !in kept;
    forall i | 0 <= i < |kept|
      ensures '+' !in kept[i]
    {
      assert kept[i] in SelectedEnvironments(environment);
    }
    SelectJoined(kept);
  }

  /** Clicking an environment not yet selected appends it. */
  lemma ToggleAdds(environment: string, env: string)
    requires env !in SelectedEnvironments(environment) && '+' !in env
    requires env != "" || environment != ""
    ensures SelectedEnvironments(ToggleEnvironment(environment, env))
            == SelectedEnvironments(environment) + [env]
  {
    var envs := SelectedEnvironments(environment);
    forall i | 0 <= i < |envs + [env]|
      ensures '+' !in (envs + [env])[i]
    {
      if i < |envs| {
        assert (envs + [env])[i] == envs[i];
      }
    }
    if envs == [] {
      assert env != "" && (envs + [env])[0] == env;
    } else {
      assert |envs + [env]| > 1;
    }
    SelectJoined(envs + [env]);
  }

  /** Clicking an unselected environment twice gives back the original string. */
  lemma ToggleTwiceRestores(environment: string, env: string)
    requires env !in SelectedEnvironments(environment) && '+' !in env
    ensures ToggleEnvironment(ToggleEnvironment(environment, env), env) == environment
  {
    var envs := SelectedEnvironments(environment);
    var once := ToggleEnvironment(environment, env);
    if env == "" && environment == "" {
      assert once == "";
    } else {
      ToggleAdds(environment, env);
      assert SelectedEnvironments(once) == envs + [env];
      RemoveAbsent(envs, env);
      assert RemoveAll(envs + [env], env) == envs by {
        RemoveAllAppend(envs, [env], env);
      }
    }
  }

  lemma {:induction false} RemoveAllAppend(a: seq<string>, b: seq<string>, env: string)
    ensures RemoveAll(a + b, env) == RemoveAll(a, env) + RemoveAll(b, env)
  {
    if a != [] {
      assert (a + b)[1..] == a[1..] + b;
      RemoveAllAppend(a[1..], b, env);
    } else {
      assert a + b == b;
    }
  }

  // ---------------------------------------------------------------------------
  // Client validation
  // ---------------------------------------------------------------------------

  const SquadAndEmailRequired: string := "Squad et Email sont requis"
  const TechnologyRequired: string := "Veuillez ajouter au moins une technologie"
  const FieldsRequired: string := "Tous les champs obligatoires doivent être remplis pour chaque technologie"
  const DatabaseFieldsRequired: string := "Type de moteur et taille disque sont requis pour Database"
  const StorageFieldsRequired: string := "Type et quota de stockage sont requis pour Storage"
  const SubmissionFailed: string := "Erreur lors de la création des tickets"

  function ComputeFieldsRequired(technology: string): string {
    "CPU et RAM sont requis pour " + technology
  }

  /** The message of the first check an entry fails, in the order the checks are made. */
  function EntryProblem(t: TechForm): (problem: Option<string>)
    ensures problem.None? <==>
      && t.technology != "" && t.solutionCode != "" && t.environment != ""
      && ((t.technology == "VM" || t.technology == "Kubernetes") ==> Truthy(t.cpu) && Truthy(t.ram))
      && (t.technology == "Database" ==> Filled(t.dbEngine) && Truthy(t.diskSize))
      && (t.technology == "Storage" ==> Filled(t.storageType) && Truthy(t.storageQuota))
  {
    if t.technology == "" || t.solutionCode == "" || t.environment == "" then Some(FieldsRequired)
    else if (t.technology == "VM" || t.technology == "Kubernetes") && (!Truthy(t.cpu) || !Truthy(t.ram))
    then Some(ComputeFieldsRequired(t.technology))
    else if t.technology == "Database" && (!Filled(t.dbEngine) || !Truthy(t.diskSize)) then Some(DatabaseFieldsRequired)
    else if t.technology == "Storage" && (!Filled(t.storageType) || !Truthy(t.storageQuota)) then Some(StorageFieldsRequired)
    else None
  }

  /** The first problem of the list, entries taken in order. */
  function FirstProblem(ts: seq<TechForm>): Option<string> {
    if ts == [] then None
    else if EntryProblem(ts[0]).Some? then EntryProblem(ts[0])
    else FirstProblem(ts[1..])
  }

  /** The list has no problem exactly when none of its entries has one. */
  lemma {:induction false} NoProblemIff(ts: seq<TechForm>)
    ensures FirstProblem(ts).None? <==> forall i :: 0 <= i < |ts| ==> EntryProblem(ts[i]).None?
  {
    if ts != [] {
      NoProblemIff(ts[1..]);
      assert forall i :: 1 <= i < |ts| ==> ts[i] == ts[1..][i - 1];
    }
  }

  /** A reported problem belongs to an entry all of whose predecessors passed. */
  lemma {:induction false} FirstFailing(ts: seq<TechForm>) returns (k: nat)
    requires FirstProblem(ts).Some?
    ensures k < |ts| && EntryProblem(ts[k]) == FirstProblem(ts)
    ensures forall i :: 0 <= i < k ==> EntryProblem(ts[i]).None?
  {
    if EntryProblem(ts[0]).Some? {
      k := 0;
    } else {
      var k' := FirstFailing(ts[1..]);
      k := k' + 1;
      assert forall i :: 1 <= i < k ==> ts[i] == ts[1..][i - 1];
    }
  }

  /** An entry as sent to the server: its fields without the id. */
  function ItemOfEntry(t: TechForm): TechnologyInput {
    TechnologyInput(t.technology, t.solutionCode, t.environment, t.cpu, t.ram,
                    t.dbEngine, t.diskSize, t.storageType, t.storageQuota)
  }

  /** The entry an item came from, given its id back. */
  function EntryOfItem(item: TechnologyInput, id: nat): TechForm {
    TechForm(id, item.technology, item.solutionCode, item.environment, item.cpu, item.ram,
             item.dbEngine, item.diskSize, item.storageType, item.storageQuota)
  }

  /** Only the id is lost in sending an entry. */
  lemma EntryRoundTrip(t: TechForm)
    ensures EntryOfItem(ItemOfEntry(t), t.id) == t
  {
  }

  /** The list as sent: same length and order, each entry without its id. */
  function StripIds(ts: seq<TechForm>): (items: seq<TechnologyInput>)
    ensures |items| == |ts|
    ensures forall i :: 0 <= i < |ts| ==> EntryOfItem(items[i], ts[i].id) == ts[i]
  {
    seq(|ts|, i requires 0 <= i < |ts| => ItemOfEntry(ts[i]))
  }

  /** What a submission leads to: an error message, or a batch sent to `createMultiple`. */
  datatype Submission = Rejected(message: string) | Send(batch: BatchInput)

  /** The outcome of submitting the form, as the checks decide it. */
  function Validate(squad: string, email: string, ts: seq<TechForm>): (s: Submission)
    ensures s.Send? ==>
      && squad != "" && email != "" && |ts| >= 1
      && s.batch.squad == squad && s.batch.email == email && s.batch.technologies == StripIds(ts)
      && forall i :: 0 <= i < |ts| ==> EntryProblem(ts[i]).None?
  {
    if squad == "" || email == "" then Rejected(SquadAndEmailRequired)
    else if |ts| == 0 then Rejected(TechnologyRequired)
    else match FirstProblem(ts)
      case Some(message) => Rejected(message)
      case None =>
        NoProblemIff(ts);
        Send(BatchInput(squad, email, StripIds(ts)))
  }

  /**
   * Both directions of validation: a form is sent exactly when squad and email are
   * filled, there is an entry, and every entry passes every check. Otherwise the
   * message is that of the first check to fail, taking the entries in order.
   */
  lemma ValidateOutcome(squad: string, email: string, ts: seq<TechForm>)
    ensures Validate(squad, email, ts).Send? <==>
      squad != "" && email != "" && |ts| >= 1 && forall i :: 0 <= i < |ts| ==> EntryProblem(ts[i]).None?
    ensures squad == "" || email == "" ==> Validate(squad, email, ts) == Rejected(SquadAndEmailRequired)
    ensures squad != "" && email != "" && ts == [] ==> Validate(squad, email, ts) == Rejected(TechnologyRequired)
    ensures squad != "" && email != "" && ts != [] && Validate(squad, email, ts).Rejected? ==>
      exists k :: 0 <= k < |ts| && EntryProblem(ts[k]) == Some(Validate(squad, email, ts).message)
        && forall i :: 0 <= i < k ==> EntryProblem(ts[i]).None?
  {
    NoProblemIff(ts);
    if squad != "" && email != "" && ts != [] && FirstProblem(ts).Some? {
      var k := FirstFailing(ts);
    }
  }

  /** The checks of `handleSubmit`, made one entry at a time; the first failing check ends them. */
  method ValidateSubmission(squad: string, email: string, ts: seq<TechForm>) returns (s: Submission)
    ensures s == Validate(squad, email, ts)
  {
    if squad == "" || email == "" {
      return Rejected(SquadAndEmailRequired);
    }
    if |ts| == 0 {
      return Rejected(TechnologyRequired);
    }
    var i := 0;
    while i < |ts|
      invariant 0 <= i <= |ts|
      invariant FirstProblem(ts) == FirstProblem(ts[i..])
    {
      var t := ts[i];
      assert ts[i..][0] == t && ts[i..][1..] == ts[i + 1..];
      if t.technology == "" || t.solutionCode == "" || t.environment == "" {
        return Rejected(FieldsRequired);
      }
      if (t.technology == "VM" || t.technology == "Kubernetes") && (!Truthy(t.cpu) || !Truthy(t.ram)) {
        return Rejected(ComputeFieldsRequired(t.technology));
      }
      if t.technology == "Database" && (!Filled(t.dbEngine) || !Truthy(t.diskSize)) {
        return Rejected(DatabaseFieldsRequired);
      }
      if t.technology == "Storage" && (!Filled(t.storageType) || !Truthy(t.storageQuota)) {
        return Rejected(StorageFieldsRequired);
      }
      i := i + 1;
    }
    return Send(BatchInput(squad, email, StripIds(ts)));
  }

  /** A batch the form sends meets the server's input rules, whenever the email is well formed. */
  lemma SentBatchAccepted(squad: string, email: string, ts: seq<TechForm>, isEmail: string -> bool)
    requires Validate(squad, email, ts).Send? && isEmail(email)
    ensures BatchAccepted(Validate(squad, email, ts).batch, isEmail)
  {
    NoProblemIff(ts);
  }

  /** Every entry the form sends gets the specification section of its technology in the description. */
  lemma SentEntriesGetTheirSection(squad: string, email: string, ts: seq<TechForm>, i: nat)
    requires Validate(squad, email, ts).Send? && i < |ts|
    ensures var b := Validate(squad, email, ts).batch;
      && |b.technologies| == |ts|
      && ((ts[i].technology == "VM" || ts[i].technology == "Kubernetes") ==> ComputeRequested(ItemData(b, i)))
      && (ts[i].technology == "Database" ==> DatabaseRequested(ItemData(b, i)))
      && (ts[i].technology == "Storage" ==> StorageRequested(ItemData(b, i)))
  {
    NoProblemIff(ts);
    assert EntryProblem(ts[i]).None?;
  }

  // ---------------------------------------------------------------------------
  // The form's state and its handlers
  // ---------------------------------------------------------------------------

  class TicketForm {
    var squad: string
    var email: string
    var technologies: seq<TechForm>
    var errorMessage: Option<string>
    var successResults: Option<seq<TicketResponse>>

    /** There is always at least one entry, and ids tell entries apart. */
    ghost predicate Valid()
      reads this
    {
      |technologies| >= 1 && UniqueIds(technologies)
    }

    /** A fresh form: empty squad and email, one blank entry with id 1, nothing shown. */
    constructor ()
      ensures Valid()
      ensures squad == "" && email == "" && technologies == [BlankEntry(1)]
      ensures errorMessage == None && successResults == None
    {
      squad, email := "", "";
      technologies := [BlankEntry(1)];
      errorMessage, successResults := None, None;
    }

    method SetSquad(value: string)
      modifies this
      ensures squad == value
      ensures email == old(email) && technologies == old(technologies)
      ensures errorMessage == old(errorMessage) && successResults == old(successResults)
    {
      squad := value;
    }

    method SetEmail(value: string)
      modifies this
      ensures email == value
      ensures squad == old(squad) && technologies == old(technologies)
      ensures errorMessage == old(errorMessage) && successResults == old(successResults)
    {
      email := value;
    }

    /** Appends a blank entry with a fresh id; the existing entries are untouched. */
    method AddTechnology()
      requires Valid()
      modifies this
      ensures Valid()
      ensures technologies == old(technologies) + [BlankEntry(NextId(old(technologies)))]
      ensures squad == old(squad) && email == old(email)
      ensures errorMessage == old(errorMessage) && successResults == old(successResults)
    {
      technologies := technologies + [BlankEntry(NextId(technologies))];
    }

    /** Drops the entry with id `id`, unless it is the last entry left. */
    method RemoveTechnology(id: nat)
      requires Valid()
      modifies this
      ensures Valid()
      ensures |old(technologies)| > 1 ==> technologies == WithoutId(old(technologies), id)
      ensures |old(technologies)| <= 1 ==> technologies == old(technologies)
      ensures squad == old(squad) && email == old(email)
      ensures errorMessage == old(errorMessage) && successResults == old(successResults)
    {
      if |technologies| > 1 {
        RemovingKeepsIdsUnique(technologies, id);
        RemovingCount(technologies, id);
        technologies := WithoutId(technologies, id);
      }
    }

    /** Sets field `f` of the entry with id `id` to `v`. */
    method TechChange(id: nat, f: Field, v: FieldValue)
      requires Valid() && Fits(f, v)
      modifies this
      ensures Valid()
      ensures technologies == ChangeField(old(technologies), id, f, v)
      ensures squad == old(squad) && email == old(email)
      ensures errorMessage == old(errorMessage) && successResults == old(successResults)
    {
      ChangeKeepsIdsUnique(technologies, id, f, v);
      technologies := ChangeField(technologies, id, f, v);
    }

    /** The first entry with id `id`, if any. */
    static function Find(ts: seq<TechForm>, id: nat): (found: Option<TechForm>)
      ensures found.Some? <==> HasId(ts, id)
      ensures found.Some? ==> found.value in ts && found.value.id == id
      ensures found.Some? ==> exists k :: 0 <= k < |ts| && ts[k] == found.value && !HasId(ts[..k], id)
    {
      if ts == [] then None
      else if ts[0].id == id then Some(ts[0])
      else
        var rest := Find(ts[1..], id);
        assert HasId(ts, id) ==> HasId(ts[1..], id) by {
          if HasId(ts, id) {
            var k :| 0 <= k < |ts| && ts[k].id == id;
            assert ts[1..][k - 1].id == id;
          }
        }
        assert HasId(ts[1..], id) ==> HasId(ts, id) by {
          if HasId(ts[1..], id) {
            var k :| 0 <= k < |ts[1..]| && ts[1..][k].id == id;
            assert ts[k + 1].id == id;
          }
        }
        assert rest.Some? ==> exists k :: 0 <= k < |ts| && ts[k] == rest.value && !HasId(ts[..k], id) by {
          if rest.Some? {
            var k :| 0 <= k < |ts[1..]| && ts[1..][k] == rest.value && !HasId(ts[1..][..k], id);
            assert ts[..k + 1][1..] == ts[1..][..k];
            HasIdTail(ts[..k + 1], id);
            assert ts[k + 1] == rest.value;
          }
        }
        rest
    }

    /** Clicks environment `env` of the entry with id `id`; nothing happens when there is no such entry. */
    method EnvironmentToggle(id: nat, env: string)
      requires Valid()
      modifies this
      ensures Valid()
      ensures !HasId(old(technologies), id) ==> technologies == old(technologies)
      ensures HasId(old(technologies), id) ==>
        var tech := Find(old(technologies), id).value;
        technologies == ChangeField(old(technologies), id, Environment,
                                    Text(ToggleEnvironment(tech.environment, env)))
      ensures squad == old(squad) && email == old(email)
      ensures errorMessage == old(errorMessage) && successResults == old(successResults)
    {
      var tech := Find(technologies, id);
      if tech.None? {
        return;
      }
      TechChange(id, Environment, Text(ToggleEnvironment(tech.value.environment, env)));
    }

    /**
     * Clears the error, then either shows the first problem found or hands the
     * batch to `createMultiple` (returned in `sent`). The form itself is not changed.
     */
    method HandleSubmit() returns (sent: Option<BatchInput>)
      modifies this
      ensures Validate(old(squad), old(email), old(technologies)).Rejected? ==>
        sent == None && errorMessage == Some(Validate(old(squad), old(email), old(technologies)).message)
      ensures Validate(old(squad), old(email), old(technologies)).Send? ==>
        sent == Some(Validate(old(squad), old(email), old(technologies)).batch) && errorMessage == None
      ensures squad == old(squad) && email == old(email) && technologies == old(technologies)
      ensures successResults == old(successResults)
    {
      errorMessage := None;
      var s := ValidateSubmission(squad, email, technologies);
      match s
      case Rejected(message) =>
        errorMessage := Some(message);
        sent := None;
      case Send(batch) =>
        sent := Some(batch);
    }

    /** After a successful batch: shows the results and resets the form to its initial content. */
    method OnSuccess(data: seq<TicketResponse>)
      modifies this
      ensures Valid()
      ensures successResults == Some(data) && errorMessage == None
      ensures squad == "" && email == "" && technologies == [BlankEntry(1)]
    {
      successResults := Some(data);
      errorMessage := None;
      squad, email := "", "";
      technologies := [BlankEntry(1)];
    }

    /** After a failed batch: shows the server's message, or a generic one when it is empty. */
    method OnError(message: string)
      modifies this
      ensures errorMessage == Some(if message != "" then message else SubmissionFailed)
      ensures squad == old(squad) && email == old(email) && technologies == old(technologies)
      ensures successResults == old(successResults)
    {
      errorMessage := Some(if message != "" then message else SubmissionFailed);
    }
  }
}
