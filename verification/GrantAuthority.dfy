/** Issuing and revoking broadcast grants.  Signing and signature verification are
    awaited, so every stretch of code between two awaits is one step and any other step
    may come in between.  Tokens are unforgeable values and grant ids are fresh. */
module GrantAuthority {
  import opened Common

  datatype Id = Id(value: int)

  datatype Status = Issued | Consumed | Revoked | Expired

  datatype Epoch = Epoch(tenant: int, program: int, number: int)

  datatype Grant = Grant(subject: int, epoch: Epoch, status: Status, singleUse: bool, expiresAt: int)

  /** A signing key as it was when the signature began. */
  datatype Key = Key(kid: int, generation: nat)

  datatype Record = Record(grant: Grant, key: Key)

  datatype Reservation = Reservation(grant: Grant, key: Key, cancelled: bool)

  /** A verification in progress: the token's id and key, and the caller's clock. */
  datatype Verification = Verification(id: Id, key: Key, now: int)

  /** A successful authorisation, with the record it was granted on, the caller's clock, the
      key its token was verified with and whether the request lay in the grant's scope. */
  datatype Use = Use(id: Id, record: Record, now: int, key: Key, inScope: bool)

  datatype Limits = Limits(subject: nat, tenant: nat, program: nat)

  /** `enabled` maps each known key id to its generation while the key is enabled. `used`
      and `authorised` are the history of ids and of successful authorisations. */
  datatype Authority = Authority(
    limits: Limits, retention: nat,
    enabled: map<int, nat>, known: set<int>, activeKid: int, generation: nat,
    records: map<Id, Record>, pending: map<Id, Reservation>, revokedEpochs: set<Epoch>,
    verifying: seq<Verification>, now: int,
    used: set<Id>, authorised: seq<Use>)

  // ---------------------------------------------------------------- quota

  datatype Scope = Subject(subject: int) | Tenant(tenant: int) | Program(program: int)

  predicate InScope(g: Grant, x: Scope) {
    match x
    case Subject(v) => g.subject == v
    case Tenant(v) => g.epoch.tenant == v
    case Program(v) => g.epoch.program == v
  }

  /** The id occupies capacity in the scope: issued and unexpired, or still being signed. */
  predicate Counts(s: Authority, x: Scope, now: int, id: Id) {
    if id in s.pending then InScope(s.pending[id].grant, x)
    else id in s.records && s.records[id].grant.status == Issued && s.records[id].grant.expiresAt > now
         && InScope(s.records[id].grant, x)
  }

  function LoadIds(s: Authority, x: Scope, now: int): set<Id> {
    set id | id in s.records.Keys + s.pending.Keys && Counts(s, x, now, id)
  }

  function Load(s: Authority, x: Scope, now: int): nat {
    |LoadIds(s, x, now)|
  }

  function LimitOf(s: Authority, x: Scope): nat {
    match x
    case Subject(_) => s.limits.subject
    case Tenant(_) => s.limits.tenant
    case Program(_) => s.limits.program
  }

  predicate WithinQuota(s: Authority, g: Grant, now: int) {
    && Load(s, Subject(g.subject), now) < s.limits.subject
    && Load(s, Tenant(g.epoch.tenant), now) < s.limits.tenant
    && Load(s, Program(g.epoch.program), now) < s.limits.program
  }

  // ---------------------------------------------------------------- stretches between awaits

  function Transition(r: Record, status: Status): Record {
    if r.grant.status != Issued then r else r.(grant := r.grant.(status := status))
  }

  function Prune(s: Authority, now: int): Authority {
    s.(records := map id | id in s.records && s.records[id].grant.expiresAt + s.retention > now ::
         if s.records[id].grant.expiresAt <= now then Transition(s.records[id], Expired) else s.records[id])
  }

  predicate KeyCurrent(s: Authority, k: Key) {
    k.kid in s.enabled && s.enabled[k.kid] == k.generation && s.activeKid == k.kid && s.generation == k.generation
  }

  function RevokeWhere(records: map<Id, Record>, p: Record -> bool): map<Id, Record> {
    map id | id in records :: if p(records[id]) then Transition(records[id], Revoked) else records[id]
  }

  datatype Step =
    | BeginIssue(id: Id, grant: Grant, now: int)     // until the signature is awaited
    | FinishIssue(id: Id)                            // the signature has arrived
    | SigningFails(id: Id)
    | BeginVerify(id: Id, key: Key, now: int)        // until the verification is awaited
    | FinishVerify(index: nat, scopeMatches: bool)    // the signature was valid
    | RevokeGrant(id: Id)
    | RevokeEpoch(epoch: Epoch)
    | Rotate(kid: int)
    | Disable(kid: int)
    | PruneAt(now: int)

  predicate Issuable(s: Authority, id: Id, g: Grant, now: int) {
    && g.status == Issued && g.expiresAt > now && id !in s.used
    && g.epoch !in s.revokedEpochs && WithinQuota(Prune(s, now), g, now)
    && s.activeKid in s.enabled
  }

  /** Time never runs backwards; refused calls change nothing and are left out. */
  predicate Enabled(s: Authority, t: Step) {
    match t
    case BeginIssue(id, g, now) => now >= s.now && Issuable(s, id, g, now)
    case FinishIssue(id) => id in s.pending
    case SigningFails(id) => id in s.pending
    case BeginVerify(id, key, now) => now >= s.now && key.kid in s.enabled
    case FinishVerify(i, _) => i < |s.verifying|
    case RevokeGrant(_) => true
    case RevokeEpoch(_) => true
    case Rotate(kid) => kid !in s.known
    case Disable(kid) => kid in s.known && kid != s.activeKid
    case PruneAt(now) => now >= s.now
  }

  /** The checks after the verification's await. */
  predicate Authorises(s: Authority, v: Verification, scopeMatches: bool) {
    && v.id in s.records
    && var r := s.records[v.id];
       && r.grant.epoch !in s.revokedEpochs
       && r.grant.status == Issued && r.grant.expiresAt > v.now && r.key == v.key
       && scopeMatches
  }

  function Apply(s: Authority, t: Step): Authority
    requires Enabled(s, t)
  {
    match t
    case BeginIssue(id, g, now) =>
      var u := Prune(s, now);
      u.(pending := u.pending[id := Reservation(g, Key(s.activeKid, s.enabled[s.activeKid]), false)],
         used := u.used + {id}, now := now)
    case FinishIssue(id) =>
      var r := s.pending[id];
      var u := s.(pending := s.pending - {id});
      if r.grant.epoch in s.revokedEpochs || r.cancelled || !KeyCurrent(s, r.key) then u
      else u.(records := u.records[id := Record(r.grant, r.key)])
    case SigningFails(id) => s.(pending := s.pending - {id})
    case BeginVerify(id, key, now) => s.(verifying := s.verifying + [Verification(id, key, now)], now := now)
    case FinishVerify(i, scopeMatches) =>
      var v := s.verifying[i];
      var u := s.(verifying := s.verifying[..i] + s.verifying[i + 1..]);
      if !Authorises(s, v, scopeMatches) then u
      else
        u.(authorised := u.authorised + [Use(v.id, s.records[v.id], v.now, v.key, scopeMatches)],
           records := if s.records[v.id].grant.singleUse then u.records[v.id := Transition(s.records[v.id], Consumed)]
                      else u.records)
    case RevokeGrant(id) =>
      if id in s.pending then s.(pending := s.pending[id := s.pending[id].(cancelled := true)])
      else if id in s.records then s.(records := s.records[id := Transition(s.records[id], Revoked)])
      else s
    case RevokeEpoch(e) =>
      s.(revokedEpochs := s.revokedEpochs + {e}, records := RevokeWhere(s.records, (r: Record) => r.grant.epoch == e))
    case Rotate(kid) =>
      s.(generation := s.generation + 1, records := RevokeWhere(s.records, (_: Record) => true),
         enabled := s.enabled[kid := s.generation + 1], known := s.known + {kid}, activeKid := kid)
    case Disable(kid) =>
      s.(enabled := s.enabled - {kid}, records := RevokeWhere(s.records, (r: Record) => r.key.kid == kid))
    case PruneAt(now) => Prune(s, now).(now := now)
  }

  ghost predicate Execution(init: Authority, steps: seq<Step>, states: seq<Authority>) {
    && |states| == |steps| + 1 && states[0] == init
    && init.records == map[] && init.pending == map[] && init.authorised == [] && init.used == {} && init.verifying == []
    && init.revokedEpochs == {}
    && forall k :: 0 <= k < |steps| ==> Enabled(states[k], steps[k]) && states[k + 1] == Apply(states[k], steps[k])
  }

  // ---------------------------------------------------------------- the invariant

  /** A single-use grant that was authorised is spent. */
  ghost predicate Spent(s: Authority, u: Use) {
    && u.id in s.used && u.id !in s.pending
    && (u.record.grant.singleUse && u.id in s.records ==> s.records[u.id].grant.status != Issued)
  }

  /** Whatever is still authorisable was signed in the present key generation, and its
      epoch is not revoked. */
  ghost predicate Authorisable(s: Authority, id: Id)
    requires id in s.records
  {
    s.records[id].grant.status == Issued ==>
      s.records[id].key.generation == s.generation && s.records[id].grant.epoch !in s.revokedEpochs
  }

  ghost predicate Sound(s: Authority) {
    && s.records.Keys <= s.used && s.pending.Keys <= s.used && s.records.Keys !! s.pending.Keys
    && (forall id :: id in s.pending ==> s.pending[id].grant.status == Issued)
    && (forall id :: id in s.records ==> Authorisable(s, id))
    && (forall i :: 0 <= i < |s.authorised| ==> Spent(s, s.authorised[i]))
    && (forall i, j :: 0 <= i < j < |s.authorised| && s.authorised[i].record.grant.singleUse ==>
          s.authorised[i].id != s.authorised[j].id)
  }

  /** Where a record comes from: it was there, perhaps still issued, or its signature has
      just arrived. */
  lemma RecordOrigin(s: Authority, t: Step, id: Id)
    requires Enabled(s, t) && id in Apply(s, t).records
    ensures var r := Apply(s, t).records[id];
            || (&& id in s.records && r.key == s.records[id].key
                && r.grant == s.records[id].grant.(status := r.grant.status)
                && (r.grant.status == Issued ==> r == s.records[id] && !t.Rotate? && (t.RevokeEpoch? ==> r.grant.epoch != t.epoch))
                && (s.records[id].grant.status != Issued ==> r == s.records[id]))
            || (&& t == FinishIssue(id) && id in s.pending && r == Record(s.pending[id].grant, s.pending[id].key)
                && r.grant.epoch !in s.revokedEpochs && !s.pending[id].cancelled && KeyCurrent(s, r.key))
  {
    hide WithinQuota;
  }

  lemma PendingOrigin(s: Authority, t: Step, id: Id)
    requires Enabled(s, t) && id in Apply(s, t).pending
    ensures var r := Apply(s, t).pending[id];
            || (id in s.pending && r == s.pending[id].(cancelled := r.cancelled) && (s.pending[id].cancelled ==> r.cancelled)
                && t != FinishIssue(id))
            || (t.BeginIssue? && t.id == id && id !in s.used && r.grant == t.grant && r.grant.status == Issued
                && s.activeKid in s.enabled && r.key == Key(s.activeKid, s.enabled[s.activeKid]))
  {
    hide WithinQuota;
    hide RevokeWhere;
  }

  lemma FieldsStep(s: Authority, t: Step)
    requires Enabled(s, t)
    ensures var u := Apply(s, t);
            && u.generation == s.generation + (if t.Rotate? then 1 else 0)
            && u.revokedEpochs == s.revokedEpochs + (if t.RevokeEpoch? then {t.epoch} else {})
            && u.used == s.used + (if t.BeginIssue? then {t.id} else {})
            && u.now >= s.now && u.limits == s.limits
            && s.authorised <= u.authorised && |u.authorised| <= |s.authorised| + 1
            && (t.FinishIssue? ==> t.id !in u.pending)
  {
    hide WithinQuota;
    hide RevokeWhere;
  }

  lemma IdsStep(s: Authority, t: Step)
    requires Sound(s) && Enabled(s, t)
    ensures var u := Apply(s, t);
            && u.records.Keys <= u.used && u.pending.Keys <= u.used && u.records.Keys !! u.pending.Keys
            && (forall id :: id in u.pending ==> u.pending[id].grant.status == Issued)
  {
    var u := Apply(s, t);
    FieldsStep(s, t);
    hide Apply;
    hide Spent;
    hide Authorisable;
    forall id | id in u.records
      ensures id in u.used && id !in u.pending
    {
      RecordOrigin(s, t, id);
      if id in u.pending { PendingOrigin(s, t, id); }
    }
    forall id | id in u.pending
      ensures id in u.used && u.pending[id].grant.status == Issued
    {
      PendingOrigin(s, t, id);
    }
  }

  lemma RecordStep(s: Authority, t: Step, id: Id)
    requires Sound(s) && Enabled(s, t) && id in Apply(s, t).records
    ensures Authorisable(Apply(s, t), id)
  {
    assert id in s.records ==> Authorisable(s, id) && id !in s.pending;
    FieldsStep(s, t);
    RecordOrigin(s, t, id);
    hide Apply;
    hide Sound;
  }

  lemma RecordsStep(s: Authority, t: Step)
    requires Sound(s) && Enabled(s, t)
    ensures forall id :: id in Apply(s, t).records ==> Authorisable(Apply(s, t), id)
  {
    hide Apply;
    hide Authorisable;
    hide Sound;
    forall id | id in Apply(s, t).records
      ensures Authorisable(Apply(s, t), id)
    {
      RecordStep(s, t, id);
    }
  }

  lemma SpentStep(s: Authority, t: Step, x: Use)
    requires Sound(s) && Enabled(s, t) && Spent(s, x)
    ensures Spent(Apply(s, t), x)
  {
    FieldsStep(s, t);
    if x.id in Apply(s, t).pending { PendingOrigin(s, t, x.id); }
    if x.id in Apply(s, t).records { RecordOrigin(s, t, x.id); }
    hide Apply;
  }

  lemma UsesStep(s: Authority, t: Step)
    requires Sound(s) && Enabled(s, t)
    ensures var u := Apply(s, t);
            && (forall i :: 0 <= i < |u.authorised| ==> Spent(u, u.authorised[i]))
            && (forall i, j :: 0 <= i < j < |u.authorised| && u.authorised[i].record.grant.singleUse ==>
                  u.authorised[i].id != u.authorised[j].id)
  {
    var u := Apply(s, t);
    hide WithinQuota;
    hide Prune;
    hide RevokeWhere;
    forall i | 0 <= i < |u.authorised|
      ensures Spent(u, u.authorised[i])
    {
      if i < |s.authorised| { SpentStep(s, t, s.authorised[i]); }
    }
    forall i, j | 0 <= i < j < |u.authorised| && u.authorised[i].record.grant.singleUse
      ensures u.authorised[i].id != u.authorised[j].id
    {
      assert Spent(s, s.authorised[i]);
    }
  }

  lemma StepSound(s: Authority, t: Step)
    requires Sound(s) && Enabled(s, t)
    ensures Sound(Apply(s, t))
  {
    hide Apply;
    hide Spent;
    hide Authorisable;
    IdsStep(s, t);
    RecordsStep(s, t);
    UsesStep(s, t);
  }

  lemma {:induction false} ExecutionSound(init: Authority, steps: seq<Step>, states: seq<Authority>, k: nat)
    requires Execution(init, steps, states) && k < |states|
    ensures Sound(states[k])
  {
    hide Apply;
    hide Enabled;
    if k > 0 {
      ExecutionSound(init, steps, states, k - 1);
      StepSound(states[k - 1], steps[k - 1]);
      hide Sound;
    }
  }

  /** A single-use grant is authorised at most once, in every interleaving. */
  lemma SingleUseOnce(init: Authority, steps: seq<Step>, states: seq<Authority>, k: nat, i: nat, j: nat)
    requires Execution(init, steps, states) && k < |states| && i < j < |states[k].authorised|
    requires states[k].authorised[i].record.grant.singleUse
    ensures states[k].authorised[i].id != states[k].authorised[j].id
  {
    ExecutionSound(init, steps, states, k);
  }

  // ---------------------------------------------------------------- quota over every run

  /** Every grant that occupies capacity later did so before. */
  lemma StepShrinks(s: Authority, t: Step, x: Scope, id: Id)
    requires Sound(s) && Enabled(s, t) && !t.BeginIssue?
    requires Counts(Apply(s, t), x, Apply(s, t).now, id)
    ensures Counts(s, x, s.now, id)
  {
    FieldsStep(s, t);
    if id in Apply(s, t).pending { PendingOrigin(s, t, id); } else { RecordOrigin(s, t, id); }
    assert id in s.records ==> id !in s.pending;
    hide Apply;
    hide Sound;
  }

  lemma PruneShrinks(s: Authority, now: int, x: Scope)
    requires now >= s.now
    ensures LoadIds(Prune(s, now), x, now) <= LoadIds(s, x, s.now)
  {
    forall id | id in LoadIds(Prune(s, now), x, now)
      ensures id in LoadIds(s, x, s.now)
    {
    }
  }

  lemma CountsReserved(p: Authority, u: Authority, id: Id, r: Reservation, now: int, x: Scope)
    requires id !in p.records && id !in p.pending
    requires u.records == p.records && u.pending == p.pending[id := r]
    ensures LoadIds(u, x, now) == LoadIds(p, x, now) + if InScope(r.grant, x) then {id} else {}
    ensures id !in LoadIds(p, x, now)
  {
    forall i
      ensures i in LoadIds(u, x, now) <==> i in LoadIds(p, x, now) || (i == id && InScope(r.grant, x))
    {
    }
  }

  /** A new reservation adds one to the scopes it is in and nothing elsewhere. */
  lemma ReservationLoad(s: Authority, id: Id, g: Grant, now: int, x: Scope)
    requires Sound(s) && Enabled(s, BeginIssue(id, g, now))
    ensures LoadIds(Apply(s, BeginIssue(id, g, now)), x, now) ==
            LoadIds(Prune(s, now), x, now) + if InScope(g, x) then {id} else {}
    ensures id !in LoadIds(Prune(s, now), x, now)
  {
    var r := Reservation(g, Key(s.activeKid, s.enabled[s.activeKid]), false);
    hide WithinQuota;
    hide LoadIds;
    hide Spent;
    hide Authorisable;
    CountsReserved(Prune(s, now), Apply(s, BeginIssue(id, g, now)), id, r, now, x);
  }

  lemma StepQuota(s: Authority, t: Step, x: Scope)
    requires Sound(s) && Enabled(s, t) && Load(s, x, s.now) <= LimitOf(s, x)
    ensures Load(Apply(s, t), x, Apply(s, t).now) <= LimitOf(Apply(s, t), x)
  {
    var u := Apply(s, t);
    assert u.limits == s.limits;
    if t.BeginIssue? {
      PruneShrinks(s, t.now, x);
      SubsetSize(LoadIds(Prune(s, t.now), x, t.now), LoadIds(s, x, s.now));
      ReservationLoad(s, t.id, t.grant, t.now, x);
      hide Prune;
    } else {
      forall id | id in LoadIds(u, x, u.now)
        ensures id in LoadIds(s, x, s.now)
      {
        StepShrinks(s, t, x, id);
      }
      SubsetSize(LoadIds(u, x, u.now), LoadIds(s, x, s.now));
    }
    hide LoadIds;
    hide Sound;
    hide RevokeWhere;
  }

  /** Issued unexpired grants plus grants being signed never exceed the subject, tenant or
      program limit, at any await of any run. */
  lemma {:induction false} QuotaHolds(init: Authority, steps: seq<Step>, states: seq<Authority>, k: nat, x: Scope)
    requires Execution(init, steps, states) && k < |states|
    ensures Load(states[k], x, states[k].now) <= LimitOf(states[k], x)
  {
    if k == 0 {
      assert LoadIds(init, x, init.now) == {};
    } else {
      hide Apply;
      hide Enabled;
      hide Load;
      hide LimitOf;
      hide Sound;
      QuotaHolds(init, steps, states, k - 1, x);
      ExecutionSound(init, steps, states, k - 1);
      StepQuota(states[k - 1], steps[k - 1], x);
    }
  }

  // ---------------------------------------------------------------- revocation is final

  /** Keys never carry a later generation than the authority's, and the active key carries
      exactly that one. */
  ghost predicate Generations(s: Authority) {
    && s.activeKid in s.enabled && s.enabled[s.activeKid] == s.generation && s.enabled.Keys <= s.known
    && (forall id :: id in s.pending ==> s.pending[id].key.generation <= s.generation)
    && (forall id :: id in s.records ==> s.records[id].key.generation <= s.generation)
  }

  lemma GenerationsStep(s: Authority, t: Step)
    requires Generations(s) && Enabled(s, t)
    ensures Generations(Apply(s, t)) && Apply(s, t).generation >= s.generation
    ensures s.used <= Apply(s, t).used && s.revokedEpochs <= Apply(s, t).revokedEpochs
    ensures s.authorised <= Apply(s, t).authorised && |Apply(s, t).authorised| <= |s.authorised| + 1
  {
    hide WithinQuota;
  }

  /** The id was issued under a key generation that has been rotated away. */
  ghost predicate Outdated(s: Authority, id: Id, generation: nat) {
    && id in s.used && generation < s.generation
    && (id in s.pending ==> s.pending[id].key.generation <= generation)
    && (id in s.records ==> s.records[id].key.generation <= generation)
  }

  /** The id was revoked by name, before or after its signature arrived. */
  ghost predicate Withdrawn(s: Authority, id: Id) {
    && id in s.used
    && (id in s.pending ==> s.pending[id].cancelled)
    && (id in s.records ==> s.records[id].grant.status != Issued)
  }

  /** A new authorisation is of a record that was authorisable before the step. */
  lemma UseOrigin(s: Authority, t: Step)
    requires Enabled(s, t)
    ensures forall i :: |s.authorised| <= i < |Apply(s, t).authorised| ==>
              var x := Apply(s, t).authorised[i];
              && x.id in s.records && x.record == s.records[x.id]
              && x.record.grant.status == Issued && x.record.grant.epoch !in s.revokedEpochs
  {
    hide WithinQuota;
    hide RevokeWhere;
  }

  lemma OutdatedStep(s: Authority, t: Step, id: Id, generation: nat)
    requires Sound(s) && Outdated(s, id, generation) && Enabled(s, t)
    ensures Outdated(Apply(s, t), id, generation)
    ensures forall i :: |s.authorised| <= i < |Apply(s, t).authorised| ==> Apply(s, t).authorised[i].id != id
  {
    assert id in s.records ==> Authorisable(s, id);
    UseOrigin(s, t);
    FieldsStep(s, t);
    if id in Apply(s, t).pending { PendingOrigin(s, t, id); }
    if id in Apply(s, t).records { RecordOrigin(s, t, id); }
    hide Apply;
    hide Sound;
  }

  lemma WithdrawnStep(s: Authority, t: Step, id: Id)
    requires Sound(s) && Withdrawn(s, id) && Enabled(s, t)
    ensures Withdrawn(Apply(s, t), id)
    ensures forall i :: |s.authorised| <= i < |Apply(s, t).authorised| ==> Apply(s, t).authorised[i].id != id
  {
    assert id in s.records ==> id !in s.pending;
    UseOrigin(s, t);
    FieldsStep(s, t);
    if id in Apply(s, t).pending { PendingOrigin(s, t, id); }
    if id in Apply(s, t).records { RecordOrigin(s, t, id); }
    hide Apply;
    hide Sound;
  }

  lemma EpochStep(s: Authority, t: Step)
    requires Enabled(s, t)
    ensures s.revokedEpochs <= Apply(s, t).revokedEpochs && s.authorised <= Apply(s, t).authorised
    ensures forall i :: |s.authorised| <= i < |Apply(s, t).authorised| ==>
              Apply(s, t).authorised[i].record.grant.epoch !in s.revokedEpochs
  {
    hide WithinQuota;
  }

  /** After an epoch revocation returns, nothing of that epoch is authorised, whether it
      was issued, being signed or being verified at that moment. */
  lemma {:induction false} EpochRevocationFinal(init: Authority, steps: seq<Step>, states: seq<Authority>, i: nat, k: nat, j: nat)
    requires Execution(init, steps, states) && i < k < |states| && steps[i].RevokeEpoch?
    requires |states[i + 1].authorised| <= j < |states[k].authorised|
    ensures states[k].authorised[j].record.grant.epoch != steps[i].epoch
    decreases k
  {
    hide Apply;
    hide Enabled;
    if k > i + 1 {
      assert Enabled(states[k - 1], steps[k - 1]) && states[k - 1 + 1] == Apply(states[k - 1], steps[k - 1]);
      EpochPersists(init, steps, states, i, k - 1);
      EpochStep(states[k - 1], steps[k - 1]);
      if j < |states[k - 1].authorised| {
        EpochRevocationFinal(init, steps, states, i, k - 1, j);
      }
    }
  }

  lemma RevokesEpoch(s: Authority, e: Epoch)
    ensures e in Apply(s, RevokeEpoch(e)).revokedEpochs
  {
  }

  lemma {:induction false} EpochPersists(init: Authority, steps: seq<Step>, states: seq<Authority>, i: nat, k: nat)
    requires Execution(init, steps, states) && i < k < |states| && steps[i].RevokeEpoch?
    ensures steps[i].epoch in states[k].revokedEpochs
    decreases k
  {
    assert Enabled(states[k - 1], steps[k - 1]) && states[k - 1 + 1] == Apply(states[k - 1], steps[k - 1]);
    if k == i + 1 {
      RevokesEpoch(states[i], steps[i].epoch);
    } else {
      hide Apply;
      hide Enabled;
      EpochPersists(init, steps, states, i, k - 1);
      EpochStep(states[k - 1], steps[k - 1]);
    }
  }

  lemma {:induction false} ExecutionGenerations(init: Authority, steps: seq<Step>, states: seq<Authority>, k: nat)
    requires Execution(init, steps, states) && k < |states| && Generations(init)
    ensures Generations(states[k])
  {
    hide Apply;
    hide Enabled;
    if k > 0 {
      ExecutionGenerations(init, steps, states, k - 1);
      GenerationsStep(states[k - 1], steps[k - 1]);
    }
  }

  lemma RotateOutdates(s: Authority, kid: int, id: Id)
    requires Generations(s) && Enabled(s, Rotate(kid)) && id in s.used
    ensures Outdated(Apply(s, Rotate(kid)), id, s.generation)
  {
  }

  lemma RevokeWithdraws(s: Authority, id: Id)
    requires Sound(s) && (id in s.pending || id in s.records)
    ensures Withdrawn(Apply(s, RevokeGrant(id)), id)
  {
  }

  /** After a key rotation returns, no grant whose issuing began before it is authorised. */
  lemma {:induction false} RotationFinal(init: Authority, steps: seq<Step>, states: seq<Authority>, i: nat, k: nat, id: Id)
    requires Execution(init, steps, states) && Generations(init) && i < k < |states| && steps[i].Rotate?
    requires id in states[i].used
    ensures Outdated(states[k], id, states[i].generation)
    ensures forall j :: |states[i + 1].authorised| <= j < |states[k].authorised| ==> states[k].authorised[j].id != id
    decreases k
  {
    hide Apply;
    hide Outdated;
    hide Sound;
    if k == i + 1 {
      ExecutionGenerations(init, steps, states, i);
      RotateOutdates(states[i], steps[i].kid, id);
    } else {
      var s, t := states[k - 1], steps[k - 1];
      assert states[k - 1 + 1] == Apply(s, t);
      RotationFinal(init, steps, states, i, k - 1, id);
      ExecutionSound(init, steps, states, k - 1);
      OutdatedStep(s, t, id, states[i].generation);
      EpochStep(s, t);
    }
  }

  /** After a grant is revoked by name it is never authorised again, even if its signature
      or a verification of its token was still under way. */
  lemma {:induction false} RevocationFinal(init: Authority, steps: seq<Step>, states: seq<Authority>, i: nat, k: nat)
    requires Execution(init, steps, states) && i < k < |states| && steps[i].RevokeGrant?
    requires steps[i].id in states[i].pending || steps[i].id in states[i].records
    ensures Withdrawn(states[k], steps[i].id)
    ensures forall j :: |states[i + 1].authorised| <= j < |states[k].authorised| ==> states[k].authorised[j].id != steps[i].id
    decreases k
  {
    hide Apply;
    hide Withdrawn;
    hide Sound;
    if k == i + 1 {
      ExecutionSound(init, steps, states, i);
      RevokeWithdraws(states[i], steps[i].id);
    } else {
      var s, t := states[k - 1], steps[k - 1];
      assert states[k - 1 + 1] == Apply(s, t);
      RevocationFinal(init, steps, states, i, k - 1);
      ExecutionSound(init, steps, states, k - 1);
      WithdrawnStep(s, t, steps[i].id);
      EpochStep(s, t);
    }
  }

  // ---------------------------------------------------------------- what is authorised

  /** The use was proper: a live record of an epoch not revoked, its own key, within its time
      and its scope. */
  predicate Proper(u: Use) {
    u.record.grant.status == Issued && u.now < u.record.grant.expiresAt && u.key == u.record.key && u.inScope
  }

  lemma ProperStep(s: Authority, t: Step)
    requires Enabled(s, t) && forall i :: 0 <= i < |s.authorised| ==> Proper(s.authorised[i])
    ensures forall i :: 0 <= i < |Apply(s, t).authorised| ==> Proper(Apply(s, t).authorised[i])
  {
    hide WithinQuota;
    hide RevokeWhere;
  }

  /** In every execution every authorisation was proper. */
  lemma {:induction false} EveryUseProper(init: Authority, steps: seq<Step>, states: seq<Authority>, k: nat)
    requires Execution(init, steps, states) && k < |states|
    ensures forall i :: 0 <= i < |states[k].authorised| ==> Proper(states[k].authorised[i])
  {
    hide Apply;
    hide Enabled;
    if k > 0 {
      EveryUseProper(init, steps, states, k - 1);
      ProperStep(states[k - 1], steps[k - 1]);
    }
  }

  /** A verified token is authorised exactly when its grant is recorded as issued, unexpired,
      of an epoch not revoked and under the token's key, and the request is in scope; a
      single-use grant is spent by it. */
  lemma AuthorisedExactly(s: Authority, i: nat, inScope: bool)
    requires i < |s.verifying|
    ensures var v, u := s.verifying[i], Apply(s, FinishVerify(i, inScope));
            var good := && inScope && v.id in s.records
                        && var r := s.records[v.id];
                           r.grant.status == Issued && v.now < r.grant.expiresAt && r.key == v.key && r.grant.epoch !in s.revokedEpochs;
            && (good ==> u.authorised == s.authorised + [Use(v.id, s.records[v.id], v.now, v.key, true)])
            && (good && s.records[v.id].grant.singleUse ==> u.records[v.id].grant.status == Consumed)
            && (good && !s.records[v.id].grant.singleUse ==> u.records == s.records)
            && (!good ==> u.authorised == s.authorised && u.records == s.records)
  {
  }

  /** A signature that arrives makes its grant authorisable exactly when nothing was withdrawn
      meanwhile. */
  lemma RecordedExactly(s: Authority, id: Id)
    requires id in s.pending && id !in s.records
    ensures var r, u := s.pending[id], Apply(s, FinishIssue(id));
            && (id in u.records <==> r.grant.epoch !in s.revokedEpochs && !r.cancelled && KeyCurrent(s, r.key))
            && (id in u.records ==> u.records == s.records[id := Record(r.grant, r.key)])
            && id !in u.pending
  {
  }

  /** From any state, a grant that may be issued, is signed, presented in scope before it
      expires and not disturbed in between is authorised. */
  lemma IssuedIsAuthorised(s: Authority, id: Id, g: Grant, now: int, later: int)
    requires Issuable(s, id, g, now) && now >= s.now && now <= later < g.expiresAt && s.verifying == []
    requires id !in s.records && id !in s.pending && s.enabled[s.activeKid] == s.generation
    ensures var key := Key(s.activeKid, s.generation);
            var a := Apply(s, BeginIssue(id, g, now));
            && Enabled(a, FinishIssue(id))
            && var b := Apply(a, FinishIssue(id));
               && Enabled(b, BeginVerify(id, key, later))
               && var c := Apply(b, BeginVerify(id, key, later));
                  && Enabled(c, FinishVerify(0, true))
                  && Apply(c, FinishVerify(0, true)).authorised == s.authorised + [Use(id, Record(g, key), later, key, true)]
  {
    hide WithinQuota;
    var a := Apply(s, BeginIssue(id, g, now));
    assert id !in a.records;
    RecordedExactly(a, id);
    var b := Apply(a, FinishIssue(id));
    var c := Apply(b, BeginVerify(id, Key(s.activeKid, s.generation), later));
    assert c.verifying[0] == Verification(id, Key(s.activeKid, s.generation), later);
    AuthorisedExactly(c, 0, true);
  }

  /** Pruning drops nothing that occupies capacity. */
  lemma PruneUncounted(s: Authority, now: int, x: Scope)
    ensures Load(Prune(s, now), x, now) == Load(s, x, now)
  {
    var p := Prune(s, now);
    forall id ensures id in LoadIds(p, x, now) <==> id in LoadIds(s, x, now) { }
    assert LoadIds(p, x, now) == LoadIds(s, x, now);
  }

  ghost predicate RevokedBefore(steps: seq<Step>, k: nat, e: Epoch)
    requires k <= |steps|
  {
    exists i :: 0 <= i < k && steps[i] == RevokeEpoch(e)
  }

  lemma {:induction false} RevokedExactly(init: Authority, steps: seq<Step>, states: seq<Authority>, k: nat, e: Epoch)
    requires Execution(init, steps, states) && k < |states|
    ensures e in states[k].revokedEpochs <==> RevokedBefore(steps, k, e)
  {
    hide Apply;
    hide Enabled;
    if k > 0 {
      assert states[k - 1 + 1] == Apply(states[k - 1], steps[k - 1]);
      RevokedExactly(init, steps, states, k - 1, e);
      FieldsStep(states[k - 1], steps[k - 1]);
    }
  }

  /** In every execution a fresh grant is taken on exactly when it is not yet over, its epoch
      was never revoked and each of its three scopes has fewer live and pending grants than
      its limit. */
  lemma AdmittedExactly(init: Authority, steps: seq<Step>, states: seq<Authority>, k: nat, id: Id, g: Grant, now: int)
    requires Execution(init, steps, states) && Generations(init) && k < |states|
    requires now >= states[k].now && id !in states[k].used && g.status == Issued
    ensures Enabled(states[k], BeginIssue(id, g, now)) <==>
              && g.expiresAt > now && !RevokedBefore(steps, k, g.epoch)
              && forall x :: InScope(g, x) ==> Load(states[k], x, now) < LimitOf(states[k], x)
  {
    var s := states[k];
    ExecutionGenerations(init, steps, states, k);
    RevokedExactly(init, steps, states, k, g.epoch);
    hide Execution;
    hide Load;
    forall x ensures Load(Prune(s, now), x, now) == Load(s, x, now) { PruneUncounted(s, now, x); }
    hide Prune;
    assert InScope(g, Subject(g.subject)) && InScope(g, Tenant(g.epoch.tenant)) && InScope(g, Program(g.epoch.program));
  }

  // ---------------------------------------------------------------- the record table in place

  class RecordTable {
    const retention: nat
    var records: map<Id, Record>

    constructor (retention: nat)
      ensures records == map[] && this.retention == retention
    {
      this.retention, records := retention, map[];
    }

    /** Visits every record in any order. */
    method RevokeMatching(p: Record -> bool)
      modifies this
      ensures records == RevokeWhere(old(records), p)
    {
      var todo := records.Keys;
      while todo != {}
        invariant todo <= records.Keys == old(records).Keys
        invariant forall id :: id in records ==>
                    records[id] == if id in todo then old(records)[id] else RevokeWhere(old(records), p)[id]
        decreases todo
      {
        var id :| id in todo;
        if p(records[id]) && records[id].grant.status == Issued {
          records := records[id := Transition(records[id], Revoked)];
        }
        todo := todo - {id};
      }
    }

    /** Marks expired records and drops those past their retention. */
    method PruneRecords(s: Authority, now: int)
      requires s.records == records && s.retention == retention
      modifies this
      ensures records == Prune(s, now).records
    {
      var todo := records.Keys;
      while todo != {}
        invariant todo <= records.Keys <= old(records).Keys
        invariant forall id :: id in todo ==> records[id] == old(records)[id]
        invariant forall id :: id in old(records) && id !in todo ==> (id in records <==> id in Prune(s, now).records)
        invariant forall id :: id in records && id !in todo ==> records[id] == Prune(s, now).records[id]
        decreases todo
      {
        var id :| id in todo;
        if records[id].grant.status == Issued && records[id].grant.expiresAt <= now {
          records := records[id := Transition(records[id], Expired)];
        }
        if records[id].grant.expiresAt + retention <= now {
          records := records - {id};
        }
        todo := todo - {id};
      }
    }
  }
}
