/** Job creation: request validation, the payload fingerprint, and the two stores of
    idempotency records (a map in memory, a table in the database). */
module Intake {
  import opened Options
  import opened Text

  /** Clock readings and intervals, in microseconds. */
  type Time = int

  /** A UUID handed out to a job; two requests never receive the same one. */
  type JobId = nat

  const ACCEPTED := 202

  /** A decoded request body. Whether the callback URL and the cron expression parse is
      decided by library code, so both verdicts come with the request. */
  datatype RawRequest = RawRequest(
    tenant: string, pathKey: string, params: string, key: string,
    callbackUrl: string, callbackOk: bool, schedule: string, scheduleOk: bool,
    maxAttempts: int, firstRunAt: Option<Time>)

  datatype Request = Request(
    tenant: string, pathKey: string, key: string, params: string,
    callbackUrl: string, schedule: string, maxAttempts: int, firstRunAt: Option<Time>)

  datatype Refusal = MissingField | InvalidKey | InvalidCallback | InvalidSchedule

  datatype Validation = Valid(request: Request) | Refused(reason: Refusal)

  predicate KeyChar(c: char)
  {
    'a' <= c <= 'z' || 'A' <= c <= 'Z' || '0' <= c <= '9' || c == '-' || c == '_' || c == '.'
  }

  /** Letters, digits, hyphen, full stop and underscore, by their codes. */
  predicate KeyCode(n: int)
  {
    97 <= n <= 122 || 65 <= n <= 90 || 48 <= n <= 57 || n == 45 || n == 46 || n == 95
  }

  predicate ValidKey(key: string)
  {
    1 <= |key| <= 128 && forall i :: 0 <= i < |key| ==> KeyChar(key[i])
  }

  /** The rules a request must meet to be let through. */
  ghost predicate Acceptable(raw: RawRequest)
  {
    && !Blank(raw.tenant) && !Blank(raw.pathKey) && ValidKey(raw.key)
    && (raw.callbackUrl == "" || raw.callbackOk)
    && (Blank(raw.schedule) || raw.scheduleOk)
  }

  /** What validation makes of a request: tenant, path and schedule lose the white space at their ends, too few
      attempts become three, and nothing else changes. */
  ghost predicate Normalises(raw: RawRequest, r: Request)
  {
    && Strips(raw.tenant, r.tenant) && Strips(raw.pathKey, r.pathKey) && Strips(raw.schedule, r.schedule)
    && r.maxAttempts == (if raw.maxAttempts < 1 then 3 else raw.maxAttempts)
    && r.key == raw.key && r.params == raw.params && r.callbackUrl == raw.callbackUrl && r.firstRunAt == raw.firstRunAt
  }

  function Validate(raw: RawRequest): (v: Validation)
    ensures v.Valid? <==> Acceptable(raw)
    ensures v.Valid? ==> Admissible(v.request) && Normalises(raw, v.request)
    ensures v.Valid? ==> 1 <= |raw.key| <= 128 && forall i :: 0 <= i < |raw.key| ==> KeyCode(raw.key[i] as int)
    ensures v.Refused? && v.reason == InvalidKey ==>
              |raw.key| < 1 || |raw.key| > 128 || exists i :: 0 <= i < |raw.key| && !KeyCode(raw.key[i] as int)
  {
    TrimBlank(raw.tenant);
    TrimBlank(raw.pathKey);
    TrimBlank(raw.schedule);
    TrimStrips(raw.tenant);
    TrimStrips(raw.pathKey);
    TrimStrips(raw.schedule);
    var tenant, pathKey := Trim(raw.tenant), Trim(raw.pathKey);
    if tenant == "" || pathKey == "" then Refused(MissingField)
    else if !ValidKey(raw.key) then Refused(InvalidKey)
    else if raw.callbackUrl != "" && !raw.callbackOk then Refused(InvalidCallback)
    else
      var schedule := Trim(raw.schedule);
      if schedule != "" && !raw.scheduleOk then Refused(InvalidSchedule)
      else
        Valid(Request(tenant, pathKey, raw.key, raw.params, raw.callbackUrl, schedule,
                      if raw.maxAttempts < 1 then 3 else raw.maxAttempts, raw.firstRunAt))
  }

  /** What every request that reaches a store satisfies. */
  predicate Admissible(r: Request)
  {
    && r.tenant != "" && r.pathKey != "" && ValidKey(r.key) && r.maxAttempts >= 1
    && Trimmed(r.tenant) && Trimmed(r.pathKey) && Trimmed(r.schedule)
  }

  /** The hashed fields. SHA-256 over their JSON is taken to be injective, so the fields
      themselves stand for the digest. `maxAttempts` and the tenant are not among them. */
  datatype Fingerprint = Fingerprint(
    pathKey: string, params: string, callbackUrl: string, schedule: string, firstRunAt: Option<Time>)

  function FingerprintOf(r: Request): Fingerprint
  {
    Fingerprint(r.pathKey, r.params, r.callbackUrl, r.schedule, r.firstRunAt)
  }

  /** The response body of an accepted request; its state is always queued at attempt 0. */
  datatype Envelope = Envelope(
    jobId: JobId, tenant: string, pathKey: string, maxAttempts: int, nextRunAt: Time, acceptedAt: Time)

  function EnvelopeFor(r: Request, jobId: JobId, now: Time): Envelope
  {
    Envelope(jobId, r.tenant, r.pathKey, r.maxAttempts,
             if r.firstRunAt.Some? then r.firstRunAt.value else now, now)
  }

  datatype Record = Record(fingerprint: Fingerprint, statusCode: int, envelope: Envelope)

  datatype Answer = Answer(record: Record, replayed: bool, conflict: bool)

  /** The primary key of the database table. */
  datatype Triple = Triple(tenant: string, pathKey: string, key: string)

  function TripleOf(r: Request): Triple
  {
    Triple(r.tenant, r.pathKey, r.key)
  }

  /** The key of the in-memory map. */
  function MapKey(t: Triple): string
  {
    Join([t.tenant, t.pathKey, t.key], '|')
  }

  // ---------------------------------------------------------------------------------------
  // One store, whatever its key type
  // ---------------------------------------------------------------------------------------

  function Respond<K(==)>(store: map<K, Record>, k: K, rec: Record): Answer
  {
    if k !in store then Answer(rec, false, false)
    else if store[k].fingerprint == rec.fingerprint then Answer(store[k], true, false)
    else Answer(store[k], false, true)
  }

  function Remember<K(==)>(store: map<K, Record>, k: K, rec: Record): map<K, Record>
  {
    if k in store then store else store[k := rec]
  }

  /** The store after a sequence of creates. */
  function Store<K(==)>(keys: seq<K>, recs: seq<Record>): map<K, Record>
    requires |keys| == |recs|
  {
    if |keys| == 0 then map[]
    else
      var n := |keys| - 1;
      Remember(Store(keys[..n], recs[..n]), keys[n], recs[n])
  }

  /** The answer to the i-th create of a sequence. */
  function AnswerAt<K(==)>(keys: seq<K>, recs: seq<Record>, i: nat): Answer
    requires |keys| == |recs| && i < |keys|
  {
    Respond(Store(keys[..i], recs[..i]), keys[i], recs[i])
  }

  ghost predicate IsFirst<K>(keys: seq<K>, f: nat, k: K)
  {
    f < |keys| && keys[f] == k && forall g :: 0 <= g < f ==> keys[g] != k
  }

  lemma {:induction false} StoreHoldsFirst<K>(keys: seq<K>, recs: seq<Record>, k: K)
    requires |keys| == |recs|
    ensures k in Store(keys, recs) <==> k in keys
    ensures forall f: nat :: IsFirst(keys, f, k) ==> k in keys && Store(keys, recs)[k] == recs[f]
  {
    if |keys| > 0 {
      var n := |keys| - 1;
      StoreHoldsFirst(keys[..n], recs[..n], k);
      assert keys == keys[..n] + [keys[n]];
      forall f: nat | IsFirst(keys, f, k) ensures k in keys && Store(keys, recs)[k] == recs[f] {
        assert k == keys[f];
        if f < n {
          assert IsFirst(keys[..n], f, k);
        } else {
          assert k !in keys[..n];
        }
      }
    }
  }

  /** Over any sequence of creates, the first envelope stored under a key is the only one
      that key ever returns: as a replay when the fingerprints match, otherwise as a conflict. */
  lemma FirstEnvelopeWins<K>(keys: seq<K>, recs: seq<Record>, f: nat, i: nat)
    requires |keys| == |recs| && f <= i < |keys| && IsFirst(keys, f, keys[i])
    ensures AnswerAt(keys, recs, i).record == recs[f]
    ensures AnswerAt(keys, recs, i).replayed <==> f < i && recs[f].fingerprint == recs[i].fingerprint
    ensures AnswerAt(keys, recs, i).conflict <==> recs[f].fingerprint != recs[i].fingerprint
  {
    StoreHoldsFirst(keys[..i], recs[..i], keys[i]);
    if f < i {
      assert IsFirst(keys[..i], f, keys[i]);
    } else {
      assert keys[i] !in keys[..i];
    }
  }

  lemma {:induction false} FirstExists<K>(keys: seq<K>, i: nat) returns (f: nat)
    requires i < |keys|
    ensures f <= i && IsFirst(keys, f, keys[i])
  {
    if j: nat :| j < i && keys[j] == keys[i] {
      f := FirstExists(keys, j);
    } else {
      f := i;
    }
  }

  // ---------------------------------------------------------------------------------------
  // What a replay compares
  // ---------------------------------------------------------------------------------------

  function TriplesOf(rs: seq<Request>): (ts: seq<Triple>)
    ensures |ts| == |rs| && forall i :: 0 <= i < |rs| ==> ts[i] == TripleOf(rs[i])
  {
    seq(|rs|, i requires 0 <= i < |rs| => TripleOf(rs[i]))
  }

  /** The record a create would store if its key were new. */
  function FreshRecord(r: Request, jobId: JobId, now: Time): Record
  {
    Record(FingerprintOf(r), ACCEPTED, EnvelopeFor(r, jobId, now))
  }

  /** The i-th request gets the i-th job id. */
  function FreshRecords(rs: seq<Request>, now: Time): (recs: seq<Record>)
    ensures |recs| == |rs| && forall i :: 0 <= i < |rs| ==> recs[i] == FreshRecord(rs[i], i, now)
  {
    seq(|rs|, i requires 0 <= i < |rs| => FreshRecord(rs[i], i, now))
  }

  /** Two requests ask for the same thing as far as the fingerprint tells. */
  predicate SameBody(a: Request, b: Request)
  {
    a.params == b.params && a.callbackUrl == b.callbackUrl && a.schedule == b.schedule && a.firstRunAt == b.firstRunAt
  }

  /** A later create for a key is a replay exactly when it agrees with the first on parameters, callback,
      schedule and first run time. The number of attempts is not compared: whatever a replay asks
      for, it is told the first one's figure. */
  lemma ReplayIff(rs: seq<Request>, now: Time, f: nat, i: nat)
    requires f < i < |rs| && IsFirst(TriplesOf(rs), f, TripleOf(rs[i]))
    ensures var a := AnswerAt(TriplesOf(rs), FreshRecords(rs, now), i);
            && (a.replayed <==> SameBody(rs[f], rs[i])) && (a.conflict <==> !SameBody(rs[f], rs[i]))
            && a.record.envelope.maxAttempts == rs[f].maxAttempts
  {
    FirstEnvelopeWins(TriplesOf(rs), FreshRecords(rs, now), f, i);
  }

  // ---------------------------------------------------------------------------------------
  // The two key tables agree exactly when no two keys collide
  // ---------------------------------------------------------------------------------------

  function MapKeys(ts: seq<Triple>): (ks: seq<string>)
    ensures |ks| == |ts| && forall i :: 0 <= i < |ts| ==> ks[i] == MapKey(ts[i])
  {
    if |ts| == 0 then [] else MapKeys(ts[..|ts| - 1]) + [MapKey(ts[|ts| - 1])]
  }

  ghost predicate NoCollision(ts: seq<Triple>)
  {
    forall i, j :: 0 <= i < |ts| && 0 <= j < |ts| && MapKey(ts[i]) == MapKey(ts[j]) ==> ts[i] == ts[j]
  }

  ghost predicate KeyTablesAgree(ts: seq<Triple>, recs: seq<Record>)
    requires |ts| == |recs|
  {
    forall i :: 0 <= i < |ts| ==> AnswerAt(MapKeys(ts), recs, i) == AnswerAt(ts, recs, i)
  }

  predicate DistinctJobs(recs: seq<Record>)
  {
    forall i, j :: 0 <= i < j < |recs| ==> recs[i].envelope.jobId != recs[j].envelope.jobId
  }

  lemma FirstsCoincide(ts: seq<Triple>, f: nat, g: nat, i: nat)
    requires NoCollision(ts) && i < |ts|
    requires IsFirst(MapKeys(ts), f, MapKey(ts[i])) && IsFirst(ts, g, ts[i]) && f <= i && g <= i
    ensures f == g
  {
    assert MapKey(ts[f]) == MapKey(ts[i]);
    assert MapKeys(ts)[g] == MapKey(ts[i]);
  }

  /** The two tables of idempotency records give the same answers if and only if no two of the
      requests have different triples with the same map key. */
  lemma KeyTablesAgreeIff(ts: seq<Triple>, recs: seq<Record>)
    requires |ts| == |recs|
    requires DistinctJobs(recs)
    ensures KeyTablesAgree(ts, recs) <==> NoCollision(ts)
  {
    var ks := MapKeys(ts);
    if NoCollision(ts) {
      forall i | 0 <= i < |ts| ensures AnswerAt(ks, recs, i) == AnswerAt(ts, recs, i) {
        var f := FirstExists(ks, i);
        var g := FirstExists(ts, i);
        FirstsCoincide(ts, f, g, i);
        FirstEnvelopeWins(ks, recs, f, i);
        FirstEnvelopeWins(ts, recs, g, i);
      }
    }
    if KeyTablesAgree(ts, recs) {
      forall i, j | 0 <= i < |ts| && 0 <= j < |ts| && MapKey(ts[i]) == MapKey(ts[j]) ensures ts[i] == ts[j] {
        var f := AgreedFirst(ts, recs, i);
        var g := AgreedFirst(ts, recs, j);
        assert ks[i] == ks[j];
        assert f == g;
      }
    }
  }

  lemma AgreedFirst(ts: seq<Triple>, recs: seq<Record>, i: nat) returns (f: nat)
    requires |ts| == |recs| && i < |ts| && KeyTablesAgree(ts, recs)
    requires DistinctJobs(recs)
    ensures f <= i && IsFirst(MapKeys(ts), f, MapKey(ts[i])) && ts[f] == ts[i]
  {
    f := FirstExists(MapKeys(ts), i);
    var g := FirstExists(ts, i);
    FirstEnvelopeWins(MapKeys(ts), recs, f, i);
    FirstEnvelopeWins(ts, recs, g, i);
    assert recs[f] == recs[g];
  }

  // ---------------------------------------------------------------------------------------
  // The handler on the database
  // ---------------------------------------------------------------------------------------

  /** What the unique index on jobs spans: not the path. */
  datatype Scope = Scope(tenant: string, key: string)

  function ScopeOf(t: Triple): Scope
  {
    Scope(t.tenant, t.key)
  }

  /** The idempotency records, and the scopes that have a job. */
  datatype Database = Database(keys: map<Triple, Record>, taken: set<Scope>)

  /** What a caller gets: an answer, or an internal error. */
  datatype Reply = Answered(answer: Answer) | InternalError

  /** The record goes in first; a new record whose job insert is refused leaves an error. */
  function DbRespond(db: Database, t: Triple, rec: Record): Reply
  {
    if t !in db.keys && ScopeOf(t) in db.taken then InternalError else Answered(Respond(db.keys, t, rec))
  }

  function DbRemember(db: Database, t: Triple, rec: Record): Database
  {
    Database(Remember(db.keys, t, rec), if t in db.keys then db.taken else db.taken + {ScopeOf(t)})
  }

  function DbStore(ts: seq<Triple>, recs: seq<Record>): Database
    requires |ts| == |recs|
  {
    if |ts| == 0 then Database(map[], {})
    else
      var n := |ts| - 1;
      DbRemember(DbStore(ts[..n], recs[..n]), ts[n], recs[n])
  }

  function DbReplyAt(ts: seq<Triple>, recs: seq<Record>, i: nat): Reply
    requires |ts| == |recs| && i < |ts|
  {
    DbRespond(DbStore(ts[..i], recs[..i]), ts[i], recs[i])
  }

  /** Some earlier request of the tenant used the key. */
  ghost predicate ScopeUsed(ts: seq<Triple>, sc: Scope)
  {
    exists j :: 0 <= j < |ts| && ScopeOf(ts[j]) == sc
  }

  lemma {:induction false} DbStoreHolds(ts: seq<Triple>, recs: seq<Record>, sc: Scope)
    requires |ts| == |recs|
    ensures DbStore(ts, recs).keys == Store(ts, recs)
    ensures sc in DbStore(ts, recs).taken <==> ScopeUsed(ts, sc)
  {
    if |ts| > 0 {
      var n := |ts| - 1;
      DbStoreHolds(ts[..n], recs[..n], sc);
      StoreHoldsFirst(ts[..n], recs[..n], ts[n]);
      DbStoreHolds(ts[..n], recs[..n], ScopeOf(ts[n]));
      if ScopeUsed(ts[..n], sc) {
        var j :| 0 <= j < n && ScopeOf(ts[..n][j]) == sc;
        assert ScopeOf(ts[j]) == sc;
      }
      if ScopeUsed(ts, sc) {
        var j :| 0 <= j <= n && ScopeOf(ts[j]) == sc;
        assert j < n ==> ScopeOf(ts[..n][j]) == sc;
      }
      if ts[n] in ts[..n] {
        var j :| 0 <= j < n && ts[..n][j] == ts[n];
        assert ScopeOf(ts[..n][j]) == ScopeOf(ts[n]);
      }
    }
  }

  /** The first create for its triple, after one of its tenant that used its key under another path. */
  ghost predicate SecondPath(ts: seq<Triple>, i: nat)
    requires i < |ts|
  {
    ts[i] !in ts[..i] && ScopeUsed(ts[..i], ScopeOf(ts[i]))
  }

  /** Those creates, and no others, fail on the database; all others are answered from the key table. */
  lemma DbReplyExact(ts: seq<Triple>, recs: seq<Record>, i: nat)
    requires |ts| == |recs| && i < |ts|
    ensures DbReplyAt(ts, recs, i)
         == if SecondPath(ts, i) then InternalError else Answered(AnswerAt(ts, recs, i))
  {
    DbStoreHolds(ts[..i], recs[..i], ScopeOf(ts[i]));
    StoreHoldsFirst(ts[..i], recs[..i], ts[i]);
  }

  // ---------------------------------------------------------------------------------------
  // The two handlers
  // ---------------------------------------------------------------------------------------

  /** No tenant uses a key under two paths. */
  ghost predicate OnePathPerKey(ts: seq<Triple>)
  {
    forall i, j :: 0 <= i < |ts| && 0 <= j < |ts| && ScopeOf(ts[i]) == ScopeOf(ts[j]) ==> ts[i] == ts[j]
  }

  /** The handler in memory and the handler on the database reply alike to every create. */
  ghost predicate HandlersAgree(ts: seq<Triple>, recs: seq<Record>)
    requires |ts| == |recs|
  {
    forall i :: 0 <= i < |ts| ==> DbReplyAt(ts, recs, i) == Answered(AnswerAt(MapKeys(ts), recs, i))
  }

  /** The two handlers reply alike to a sequence of creates if and only if no two different triples have
      the same map key and no tenant uses a key under two paths. */
  lemma AgreementIff(ts: seq<Triple>, recs: seq<Record>)
    requires |ts| == |recs|
    requires DistinctJobs(recs)
    ensures HandlersAgree(ts, recs) <==> NoCollision(ts) && OnePathPerKey(ts)
  {
    KeyTablesAgreeIff(ts, recs);
    SecondPathIff(ts);
    forall i | 0 <= i < |ts|
      ensures DbReplyAt(ts, recs, i) == if SecondPath(ts, i) then InternalError else Answered(AnswerAt(ts, recs, i))
    {
      DbReplyExact(ts, recs, i);
    }
    assert KeyTablesAgree(ts, recs) && (forall i :: 0 <= i < |ts| ==> !SecondPath(ts, i)) ==> HandlersAgree(ts, recs);
  }

  /** Some create fails exactly when some tenant uses a key under two paths. */
  lemma SecondPathIff(ts: seq<Triple>)
    ensures (forall i :: 0 <= i < |ts| ==> !SecondPath(ts, i)) <==> OnePathPerKey(ts)
  {
    if forall i :: 0 <= i < |ts| ==> !SecondPath(ts, i) {
      forall i, j | 0 <= i < |ts| && 0 <= j < |ts| && ScopeOf(ts[i]) == ScopeOf(ts[j]) ensures ts[i] == ts[j] {
        var f := FirstExists(ts, i);
        var g := FirstExists(ts, j);
        if f < g {
          LaterIsSecond(ts, f, g);
        } else if g < f {
          LaterIsSecond(ts, g, f);
        }
      }
    }
    if OnePathPerKey(ts) {
      forall i | 0 <= i < |ts| ensures !SecondPath(ts, i) {
        if ScopeUsed(ts[..i], ScopeOf(ts[i])) {
          var j :| 0 <= j < i && ScopeOf(ts[..i][j]) == ScopeOf(ts[i]);
          assert ts[j] == ts[i] && ts[..i][j] == ts[i];
        }
      }
    }
  }

  lemma LaterIsSecond(ts: seq<Triple>, f: nat, g: nat)
    requires f < g < |ts| && IsFirst(ts, g, ts[g]) && ScopeOf(ts[f]) == ScopeOf(ts[g])
    ensures SecondPath(ts, g)
  {
    assert ScopeOf(ts[..g][f]) == ScopeOf(ts[g]);
  }

  /** One tenant, one key, two paths: the second create is accepted in memory and fails on the database. */
  lemma CrossPathDisagrees(a: Triple, b: Triple, recs: seq<Record>)
    requires a.tenant == b.tenant && a.key == b.key && a.pathKey != b.pathKey && |recs| == 2
    ensures DbReplyAt([a, b], recs, 1) == InternalError
    ensures MapKey(a) != MapKey(b) && AnswerAt(MapKeys([a, b]), recs, 1) == Answer(recs[1], false, false)
  {
    var ts := [a, b];
    DbReplyExact(ts, recs, 1);
    assert ts[..1] == [a];
    assert ScopeOf(ts[..1][0]) == ScopeOf(b);
    MapKeyUnfold(a);
    MapKeyUnfold(b);
    if MapKey(a) == MapKey(b) {
      SameTail(a.tenant + "|", a.pathKey + "|" + a.key, b.pathKey + "|" + b.key);
      SameHead(a.pathKey, b.pathKey, a.key);
    }
    var ks := MapKeys(ts);
    FirstEnvelopeWins(ks, recs, 1, 1);
  }

  lemma SameTail(x: string, y: string, z: string)
    requires x + y == x + z
    ensures y == z
  {
    assert (x + y)[|x|..] == y && (x + z)[|x|..] == z;
  }

  lemma SameHead(x: string, y: string, z: string)
    requires x + "|" + z == y + "|" + z
    ensures x == y
  {
    assert (x + "|" + z)[..|x|] == x && (y + "|" + z)[..|y|] == y;
  }

  // ---------------------------------------------------------------------------------------
  // Which tenants collide
  // ---------------------------------------------------------------------------------------

  lemma MapKeyUnfold(t: Triple)
    ensures MapKey(t) == t.tenant + "|" + (t.pathKey + "|" + t.key)
  {
    assert [t.tenant, t.pathKey, t.key][1..] == [t.pathKey, t.key];
    assert [t.pathKey, t.key][1..] == [t.key];
    assert Join([t.pathKey, t.key], '|') == t.pathKey + ['|'] + t.key;
  }

  /** One tenant id is the other with a bar and more text after it, which does not start with a space: the text
      can be the start of a path, and paths are trimmed. */
  predicate Extends(s: string, t: string)
  {
    s + "|" <= t && (|t| == |s| + 1 || !IsSpace(t[|s| + 1]))
  }

  /** What the triple of every request that reaches a store satisfies. */
  predicate AdmissibleTriple(t: Triple)
  {
    && t.tenant != "" && t.pathKey != "" && Trimmed(t.tenant) && Trimmed(t.pathKey) && ValidKey(t.key)
  }

  lemma ExtensionHasBar(s: string, t: string)
    ensures Extends(s, t) ==> !Free('|', t)
  {
    assert (s + "|")[|s|] == '|';
  }

  /** Two admissible triples with the same map key, the first with the shorter tenant. */
  lemma ShorterExtends(a: Triple, b: Triple)
    requires AdmissibleTriple(a) && MapKey(a) == MapKey(b) && |a.tenant| < |b.tenant|
    ensures Extends(a.tenant, b.tenant)
  {
    MapKeyUnfold(a);
    MapKeyUnfold(b);
    var text, n, m := MapKey(a), |a.tenant|, |b.tenant|;
    assert b.tenant == text[..m] && a.tenant + "|" == text[..n + 1];
    assert text[..n + 1] == text[..m][..n + 1];
    assert text[n + 1] == a.pathKey[0];
    assert m > n + 1 ==> b.tenant[n + 1] == text[n + 1];
  }

  lemma SameTenantSameTriple(a: Triple, b: Triple)
    requires ValidKey(a.key) && ValidKey(b.key) && MapKey(a) == MapKey(b) && |a.tenant| == |b.tenant|
    ensures a == b
  {
    MapKeyUnfold(a);
    MapKeyUnfold(b);
    assert a.tenant == MapKey(a)[..|a.tenant|] && b.tenant == MapKey(b)[..|b.tenant|];
    SameTail(a.tenant + "|", a.pathKey + "|" + a.key, b.pathKey + "|" + b.key);
    assert Free('|', a.key) && Free('|', b.key);
    LastSplitUnique(a.pathKey, a.key, b.pathKey, b.key, '|');
  }

  /** Two different admissible triples with the same map key have tenants of which one extends the other. */
  lemma CollisionExtends(a: Triple, b: Triple)
    requires AdmissibleTriple(a) && AdmissibleTriple(b) && MapKey(a) == MapKey(b) && a != b
    ensures Extends(a.tenant, b.tenant) || Extends(b.tenant, a.tenant)
  {
    if |a.tenant| < |b.tenant| {
      ShorterExtends(a, b);
    } else if |b.tenant| < |a.tenant| {
      ShorterExtends(b, a);
    } else {
      SameTenantSameTriple(a, b);
    }
  }

  /** Admissible requests of two tenants have the same map key. */
  predicate Collide(a: Triple, b: Triple)
  {
    AdmissibleTriple(a) && AdmissibleTriple(b) && MapKey(a) == MapKey(b)
  }

  /** Two tenants can collide on a key exactly when one id extends the other. */
  lemma TenantsCollideIff(s: string, t: string, key: string)
    requires s != t && ValidKey(key) && s != "" && t != "" && Trimmed(s) && Trimmed(t)
    ensures (exists p, q :: Collide(Triple(s, p, key), Triple(t, q, key))) <==> Extends(s, t) || Extends(t, s)
  {
    if p, q :| Collide(Triple(s, p, key), Triple(t, q, key)) {
      CollisionExtends(Triple(s, p, key), Triple(t, q, key));
    }
    if Extends(s, t) {
      var p := ExtensionCollides(s, t, "q", key);
      assert Collide(Triple(s, p, key), Triple(t, "q", key));
    }
    if Extends(t, s) {
      var p := ExtensionCollides(t, s, "q", key);
      assert Collide(Triple(s, "q", key), Triple(t, p, key));
    }
  }

  /** Whatever the path and key of a request of the longer tenant, a request of the shorter one collides with it. */
  lemma ExtensionCollides(s: string, t: string, path: string, key: string) returns (p: string)
    requires Extends(s, t) && s != "" && Trimmed(s) && AdmissibleTriple(Triple(t, path, key))
    ensures Collide(Triple(s, p, key), Triple(t, path, key))
  {
    var rest := t[|s| + 1..];
    p := rest + "|" + path;
    assert t == s + "|" + rest;
    MapKeyUnfold(Triple(s, p, key));
    MapKeyUnfold(Triple(t, path, key));
    assert s + "|" + (rest + "|" + path + "|" + key) == s + "|" + rest + "|" + (path + "|" + key);
    assert p[0] == (if rest == "" then '|' else t[|s| + 1]) && p[|p| - 1] == path[|path| - 1];
  }

  /** As long as no tenant id extends another, as is the case when none has a bar, the two handlers agree exactly on
      the sequences in which no tenant uses a key under two paths. */
  lemma BarFreeTenantsAgree(ts: seq<Triple>, recs: seq<Record>)
    requires |ts| == |recs|
    requires DistinctJobs(recs)
    requires forall i :: 0 <= i < |ts| ==> AdmissibleTriple(ts[i])
    ensures (forall i, j :: 0 <= i < |ts| && 0 <= j < |ts| ==> !Extends(ts[i].tenant, ts[j].tenant)) ==>
              (HandlersAgree(ts, recs) <==> OnePathPerKey(ts))
    ensures (forall i :: 0 <= i < |ts| ==> Free('|', ts[i].tenant)) ==> (HandlersAgree(ts, recs) <==> OnePathPerKey(ts))
  {
    AgreementIff(ts, recs);
    if forall i :: 0 <= i < |ts| ==> Free('|', ts[i].tenant) {
      forall i, j | 0 <= i < |ts| && 0 <= j < |ts| ensures !Extends(ts[i].tenant, ts[j].tenant) {
        ExtensionHasBar(ts[i].tenant, ts[j].tenant);
      }
    }
    if forall i, j :: 0 <= i < |ts| && 0 <= j < |ts| ==> !Extends(ts[i].tenant, ts[j].tenant) {
      forall i, j | 0 <= i < |ts| && 0 <= j < |ts| && MapKey(ts[i]) == MapKey(ts[j]) ensures ts[i] == ts[j] {
        if ts[i] != ts[j] {
          CollisionExtends(ts[i], ts[j]);
        }
      }
    }
  }

  /** A tenant id that extends another breaks the agreement, whatever its path and key. */
  lemma BarredTenantCollides(s: string, t: string, path: string, key: string, recs: seq<Record>) returns (p: string)
    requires Extends(s, t) && s != "" && Trimmed(s) && AdmissibleTriple(Triple(t, path, key))
    requires |recs| == 2 && recs[0].envelope.jobId != recs[1].envelope.jobId
    ensures AdmissibleTriple(Triple(s, p, key)) && !HandlersAgree([Triple(s, p, key), Triple(t, path, key)], recs)
  {
    p := ExtensionCollides(s, t, path, key);
    var ts := [Triple(s, p, key), Triple(t, path, key)];
    assert MapKey(ts[0]) == MapKey(ts[1]) && ts[0] != ts[1];
    AgreementIff(ts, recs);
  }

  // ---------------------------------------------------------------------------------------
  // The handler without a database
  // ---------------------------------------------------------------------------------------

  /** What a newly accepted request is told: its job, its tenant and path without the white space at their ends, its
      attempts, and when it was accepted and will first run. */
  ghost predicate DescribesJob(env: Envelope, raw: RawRequest, jobId: JobId, now: Time)
  {
    && env.jobId == jobId && Strips(raw.tenant, env.tenant) && Strips(raw.pathKey, env.pathKey)
    && env.maxAttempts == (if raw.maxAttempts < 1 then 3 else raw.maxAttempts) && env.acceptedAt == now
    && env.nextRunAt == (if raw.firstRunAt == None then now else raw.firstRunAt.value)
  }

  datatype Outcome = Rejected(reason: Refusal) | Replied(answer: Answer)

  class JobHandler {
    var idem: map<string, Record>

    constructor ()
      ensures idem == map[]
    {
      idem := map[];
    }

    method HandleInMemory(idemKey: string, fingerprint: Fingerprint, env: Envelope)
      returns (rec: Record, replayed: bool, conflict: bool)
      modifies this
      ensures idem == Remember(old(idem), idemKey, Record(fingerprint, ACCEPTED, env))
      ensures Answer(rec, replayed, conflict) == Respond(old(idem), idemKey, Record(fingerprint, ACCEPTED, env))
      ensures idemKey in idem && idem[idemKey] == rec
      ensures forall k :: k in old(idem) ==> k in idem && idem[k] == old(idem[k])
    {
      if idemKey in idem {
        rec := idem[idemKey];
        if rec.fingerprint == fingerprint {
          return rec, true, false;
        }
        return rec, false, true;
      }
      rec := Record(fingerprint, ACCEPTED, env);
      idem := idem[idemKey := rec];
      replayed, conflict := false, false;
    }

    method CreateJob(raw: RawRequest, jobId: JobId, now: Time) returns (out: Outcome)
      modifies this
      ensures Validate(raw).Refused? ==> out == Rejected(Validate(raw).reason) && idem == old(idem)
      ensures Validate(raw).Valid? && MapKey(TripleOf(Validate(raw).request)) !in old(idem) ==>
                && out.Replied? && !out.answer.replayed && !out.answer.conflict && out.answer.record.statusCode == 202
                && DescribesJob(out.answer.record.envelope, raw, jobId, now)
      ensures Validate(raw).Valid? ==>
                var r := Validate(raw).request;
                && idem == Remember(old(idem), MapKey(TripleOf(r)), FreshRecord(r, jobId, now))
                && out == Replied(Respond(old(idem), MapKey(TripleOf(r)), FreshRecord(r, jobId, now)))
    {
      match Validate(raw)
      case Refused(reason) =>
        out := Rejected(reason);
      case Valid(r) =>
        var rec, replayed, conflict :=
          HandleInMemory(MapKey(TripleOf(r)), FingerprintOf(r), EnvelopeFor(r, jobId, now));
        out := Replied(Answer(rec, replayed, conflict));
    }
  }
}
