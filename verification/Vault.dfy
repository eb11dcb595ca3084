/**
 * Key vaults racing for one data key a tenant, after `src/connections/credential-vault.ts`,
 * `src/models/model-keys.ts` and `InMemoryTenantKeyStore`.
 *
 * Any number of vaults of both kinds, each with its own cache, run any number of operations at once; a step
 * is what one operation does between two awaits, and a schedule is any interleaving of steps.
 */
module Vault {
  import opened Basics
  import opened Envelope

  datatype Kind = Credentials | ModelKeys

  datatype Job = Store(plain: Bytes) | Resolve

  datatype Trouble = Cipher(cause: CipherError) | NoDataKey | EmptyKey

  /** Where an operation stands; `held` is the secret it has read and wants to open. */
  datatype Phase =
    | Getting
    | NeedKey(held: Option<Bytes>)
    | Finding(held: Option<Bytes>)
    | Ensuring(held: Option<Bytes>, candidate: Bytes)
    | HaveKey(held: Option<Bytes>, dataKey: Bytes)
    | Done(result: Result<Option<Bytes>, Trouble>)

  /** `read` is what the name stood for at the moment the operation read it. */
  datatype Op = Op(vault: nat, tenant: string, name: string, job: Job, phase: Phase, read: Option<Bytes>)

  datatype Setup = Setup(aead: Aead, master: Bytes, kind: nat -> Kind, keys: nat -> Bytes, ivs: nat -> Bytes)

  type Name = (Kind, string, string)

  /** `meaning` is what each name was last stored as. */
  datatype World = World(
    dataKeys: map<string, Bytes>,
    secrets: map<Name, Bytes>,
    meaning: map<Name, Bytes>,
    caches: map<(nat, string), Bytes>,
    ops: seq<Op>,
    draws: nat)

  const NEW := World(map[], map[], map[], map[], [], 0)

  datatype Step = Begin(vault: nat, tenant: string, name: string, job: Job) | Advance(op: nat) | Forget(vault: nat, tenant: string, name: string)

  ghost predicate Sane(s: Setup) {
    && Opens(s.aead) && |s.master| == KEY_BYTES
    && forall n: nat :: |s.keys(n)| == KEY_BYTES && |s.ivs(n)| == IV_BYTES
  }

  // ---------------------------------------------------------------------------------------------
  // Steps

  function NameOf(s: Setup, op: Op): Name { (s.kind(op.vault), op.tenant, op.name) }

  function Started(s: Setup, vault: nat, tenant: string, name: string, job: Job): Op {
    var phase :=
      match job
      case Resolve => Getting
      case Store(plain) => if s.kind(vault) == ModelKeys && plain == [] then Done(Err(EmptyKey)) else NeedKey(None);
    Op(vault, tenant, name, job, phase, None)
  }

  /** The store keeps the first key it is given. */
  function Ensured(w: World, tenant: string, candidate: Bytes): World {
    if tenant in w.dataKeys then w else w.(dataKeys := w.dataKeys[tenant := candidate])
  }

  /** Open the tenant's stored key and remember it. */
  function Unlocked(s: Setup, w: World, op: Op, held: Option<Bytes>): (World, Op)
    requires op.tenant in w.dataKeys
  {
    match OpenDataKey(s.aead, w.dataKeys[op.tenant], s.master)
    case Err(e) => (w, op.(phase := Done(Err(Cipher(e)))))
    case Ok(key) => (w.(caches := w.caches[(op.vault, op.tenant) := key]), op.(phase := HaveKey(held, key)))
  }

  function Work(s: Setup, w: World, op: Op): (World, Op) {
    var name := NameOf(s, op);
    match op.phase
    case Getting =>
      if name in w.secrets then
        (w, op.(phase := NeedKey(Some(w.secrets[name])), read := if name in w.meaning then Some(w.meaning[name]) else None))
      else (w, op.(phase := Done(Ok(None)), read := None))
    case NeedKey(held) =>
      if (op.vault, op.tenant) in w.caches then (w, op.(phase := HaveKey(held, w.caches[(op.vault, op.tenant)])))
      else (w, op.(phase := Finding(held)))
    case Finding(held) =>
      if op.tenant in w.dataKeys then Unlocked(s, w, op, held)
      else if s.kind(op.vault) == ModelKeys && op.job == Resolve then (w, op.(phase := Done(Err(NoDataKey))))
      else
        (w.(draws := w.draws + 1),
         op.(phase := Ensuring(held, Seal(s.aead, s.keys(w.draws), s.master, s.ivs(w.draws)))))
    case Ensuring(held, candidate) => Unlocked(s, Ensured(w, op.tenant, candidate), op, held)
    case HaveKey(held, key) =>
      (match op.job
       case Store(plain) =>
         (w.(secrets := w.secrets[name := Seal(s.aead, plain, key, s.ivs(w.draws))], meaning := w.meaning[name := plain], draws := w.draws + 1),
          op.(phase := Done(Ok(None))))
       case Resolve =>
         (w, op.(phase := Done(
           if held.None? then Ok(None)
           else match Open(s.aead, held.value, key)
                case Err(e) => Err(Cipher(e))
                case Ok(plain) => Ok(Some(plain))))))
    case Done(_) => (w, op)
  }

  function Apply(s: Setup, w: World, step: Step): World {
    match step
    case Begin(vault, tenant, name, job) => w.(ops := w.ops + [Started(s, vault, tenant, name, job)])
    case Advance(i) =>
      if i < |w.ops| then
        var (w1, op) := Work(s, w, w.ops[i]);
        w1.(ops := w.ops[i := op])
      else w
    case Forget(vault, tenant, name) =>
      var n := (s.kind(vault), tenant, name);
      w.(secrets := w.secrets - {n}, meaning := w.meaning - {n})
  }

  function Run(s: Setup, w: World, steps: seq<Step>): World
    decreases |steps|
  {
    if steps == [] then w else Run(s, Apply(s, w, steps[0]), steps[1..])
  }

  // ---------------------------------------------------------------------------------------------
  // The invariant

  /** The data key a tenant's stored blob opens to. */
  ghost predicate IsDataKey(s: Setup, w: World, tenant: string, key: Bytes) {
    && tenant in w.dataKeys && OpenDataKey(s.aead, w.dataKeys[tenant], s.master) == Ok(key)
  }

  ghost predicate Sealed(s: Setup, w: World, tenant: string, blob: Bytes, plain: Bytes) {
    && tenant in w.dataKeys
    && OpenDataKey(s.aead, w.dataKeys[tenant], s.master).Ok?
    && Open(s.aead, blob, OpenDataKey(s.aead, w.dataKeys[tenant], s.master).value) == Ok(plain)
  }

  /** An empty model key is not stored. */
  predicate Refused(s: Setup, op: Op)
    requires op.job.Store?
  {
    s.kind(op.vault) == ModelKeys && op.job.plain == []
  }

  ghost predicate HeldOk(s: Setup, w: World, op: Op, held: Option<Bytes>) {
    if op.job == Resolve then held.Some? && op.read.Some? && Sealed(s, w, op.tenant, held.value, op.read.value)
    else held.None? && !Refused(s, op)
  }

  ghost predicate OpOk(s: Setup, w: World, op: Op) {
    match op.phase
    case Getting => op.job == Resolve
    case NeedKey(held) => HeldOk(s, w, op, held)
    case Finding(held) => HeldOk(s, w, op, held)
    case Ensuring(held, candidate) =>
      && HeldOk(s, w, op, held) && OpenDataKey(s.aead, candidate, s.master).Ok?
      && (op.job == Resolve ==> s.kind(op.vault) == Credentials)
    case HaveKey(held, key) => HeldOk(s, w, op, held) && IsDataKey(s, w, op.tenant, key)
    case Done(result) =>
      if op.job == Resolve then result == Ok(op.read)
      else result == (if Refused(s, op) then Err(EmptyKey) else Ok(None))
  }

  ghost predicate Inv(s: Setup, w: World) {
    && (forall t :: t in w.dataKeys ==> OpenDataKey(s.aead, w.dataKeys[t], s.master).Ok?)
    && (forall c :: c in w.caches ==> IsDataKey(s, w, c.1, w.caches[c]))
    && w.secrets.Keys == w.meaning.Keys
    && (forall n :: n in w.secrets ==> Sealed(s, w, n.1, w.secrets[n], w.meaning[n]))
    && (forall i :: 0 <= i < |w.ops| ==> OpOk(s, w, w.ops[i]))
  }

  /** No key that is stored ever changes. */
  ghost predicate KeysStay(w: World, w': World) {
    forall t :: t in w.dataKeys ==> t in w'.dataKeys && w'.dataKeys[t] == w.dataKeys[t]
  }

  lemma OpStays(s: Setup, w: World, w': World, op: Op)
    requires KeysStay(w, w') && OpOk(s, w, op)
    ensures OpOk(s, w', op)
  {
    hide Open, OpenDataKey;
  }

  lemma EnsureKeeps(s: Setup, w: World, tenant: string, candidate: Bytes)
    requires Inv(s, w) && OpenDataKey(s.aead, candidate, s.master).Ok?
    ensures var w1 := Ensured(w, tenant, candidate); Inv(s, w1) && KeysStay(w, w1) && tenant in w1.dataKeys && w1.ops == w.ops
  {
    hide Open, OpenDataKey, OpOk;
    var w1 := Ensured(w, tenant, candidate);
    forall i | 0 <= i < |w1.ops| ensures OpOk(s, w1, w1.ops[i]) {
      OpStays(s, w, w1, w.ops[i]);
    }
  }

  lemma UnlockKeeps(s: Setup, w: World, op: Op, held: Option<Bytes>)
    requires Inv(s, w) && op.tenant in w.dataKeys && HeldOk(s, w, op, held)
    ensures var (w1, op1) := Unlocked(s, w, op, held);
      Inv(s, w1) && KeysStay(w, w1) && OpOk(s, w1, op1) && w1.ops == w.ops && op1.phase.HaveKey?
  {
    hide Open, OpenDataKey, OpOk;
    var (w1, op1) := Unlocked(s, w, op, held);
    forall i | 0 <= i < |w1.ops| ensures OpOk(s, w1, w1.ops[i]) {
      OpStays(s, w, w1, w.ops[i]);
    }
    assert OpOk(s, w1, op1) by { HasKey(s, w1, op1, held); }
  }

  lemma HasKey(s: Setup, w: World, op: Op, held: Option<Bytes>)
    requires op.phase.HaveKey? && op.phase.held == held && HeldOk(s, w, op, held) && IsDataKey(s, w, op.tenant, op.phase.dataKey)
    ensures OpOk(s, w, op)
  {}

  lemma NewKeyOpens(s: Setup, n: nat)
    requires Sane(s)
    ensures OpenDataKey(s.aead, Seal(s.aead, s.keys(n), s.master, s.ivs(n)), s.master) == Ok(s.keys(n))
  {
    hide Open, Seal;
    OpenOfSeal(s.aead, s.keys(n), s.master, s.ivs(n));
  }

  lemma KeyHasLength(s: Setup, w: World, tenant: string, key: Bytes)
    requires IsDataKey(s, w, tenant, key)
    ensures |key| == KEY_BYTES
  {}

  lemma StoreKeeps(s: Setup, w: World, op: Op)
    requires Sane(s) && Inv(s, w) && OpOk(s, w, op) && op.phase.HaveKey? && op.job.Store?
    ensures var (w1, op1) := Work(s, w, op); Inv(s, w1) && KeysStay(w, w1) && w1.ops == w.ops
  {
    hide Open, OpenDataKey, Seal, OpOk, Opens;
    var (w1, op1) := Work(s, w, op);
    var key, name := op.phase.dataKey, NameOf(s, op);
    assert IsDataKey(s, w, op.tenant, key) by { KeyOf(s, w, op); }
    KeyHasLength(s, w, op.tenant, key);
    OpenOfSeal(s.aead, op.job.plain, key, s.ivs(w.draws));
    forall i | 0 <= i < |w1.ops| ensures OpOk(s, w1, w1.ops[i]) {
      OpStays(s, w, w1, w.ops[i]);
    }
  }

  lemma KeyOf(s: Setup, w: World, op: Op)
    requires OpOk(s, w, op) && op.phase.HaveKey?
    ensures HeldOk(s, w, op, op.phase.held) && IsDataKey(s, w, op.tenant, op.phase.dataKey)
  {}

  lemma WorkKeeps(s: Setup, w: World, op: Op)
    requires Sane(s) && Inv(s, w) && OpOk(s, w, op)
    requires op.phase == Done(Err(EmptyKey)) ==> op.job.Store?
    ensures var (w1, op1) := Work(s, w, op); Inv(s, w1) && KeysStay(w, w1) && OpOk(s, w1, op1) && w1.ops == w.ops
    ensures op.job == Resolve && s.kind(op.vault) == ModelKeys ==> Work(s, w, op).0.dataKeys == w.dataKeys
  {
    hide Open, OpenDataKey, Seal, Opens;
    match op.phase {
      case Getting =>
      case NeedKey(held) =>
      case Finding(held) =>
        if op.tenant in w.dataKeys {
          UnlockKeeps(s, w, op, held);
        } else {
          NewKeyOpens(s, w.draws);
          assert Inv(s, w.(draws := w.draws + 1)) by { DrawKeeps(s, w); }
        }
      case Ensuring(held, candidate) =>
        EnsureKeeps(s, w, op.tenant, candidate);
        OpStays(s, w, Ensured(w, op.tenant, candidate), op);
        UnlockKeeps(s, Ensured(w, op.tenant, candidate), op, held);
      case HaveKey(held, key) =>
        if op.job.Store? {
          StoreKeeps(s, w, op);
        }
      case Done(_) =>
    }
  }

  lemma DrawKeeps(s: Setup, w: World)
    requires Inv(s, w)
    ensures Inv(s, w.(draws := w.draws + 1))
  {
    hide Open, OpenDataKey, OpOk;
    var w1 := w.(draws := w.draws + 1);
    forall i | 0 <= i < |w1.ops| ensures OpOk(s, w1, w1.ops[i]) {
      OpStays(s, w, w1, w.ops[i]);
    }
  }

  /** Every step keeps the invariant, changes no stored key, and no resolve of a model key stores one. */
  lemma StepKeeps(s: Setup, w: World, step: Step)
    requires Sane(s) && Inv(s, w)
    ensures Inv(s, Apply(s, w, step)) && KeysStay(w, Apply(s, w, step))
    ensures step.Advance? && step.op < |w.ops| && w.ops[step.op].job == Resolve && s.kind(w.ops[step.op].vault) == ModelKeys ==>
      Apply(s, w, step).dataKeys == w.dataKeys
  {
    hide Open, OpenDataKey, OpOk, Work, Opens;
    var w' := Apply(s, w, step);
    match step {
      case Begin(vault, tenant, name, job) =>
        var op := Started(s, vault, tenant, name, job);
        assert OpOk(s, w', op) by { StartedOk(s, w', vault, tenant, name, job); }
        forall i | 0 <= i < |w'.ops| ensures OpOk(s, w', w'.ops[i]) {
          if i < |w.ops| { OpStays(s, w, w', w.ops[i]); }
        }
      case Advance(k) =>
        if k < |w.ops| {
          var (w1, op) := Work(s, w, w.ops[k]);
          DoneOk(s, w, w.ops[k]);
          WorkKeeps(s, w, w.ops[k]);
          OpStays(s, w1, w', op);
          forall i | 0 <= i < |w'.ops| ensures OpOk(s, w', w'.ops[i]) {
            if i != k { OpStays(s, w, w', w.ops[i]); }
          }
        }
      case Forget(vault, tenant, name) =>
        forall i | 0 <= i < |w'.ops| ensures OpOk(s, w', w'.ops[i]) {
          OpStays(s, w, w', w.ops[i]);
        }
    }
  }

  lemma DoneOk(s: Setup, w: World, op: Op)
    requires OpOk(s, w, op)
    ensures op.phase == Done(Err(EmptyKey)) ==> op.job.Store?
  {}

  lemma StartedOk(s: Setup, w: World, vault: nat, tenant: string, name: string, job: Job)
    ensures OpOk(s, w, Started(s, vault, tenant, name, job))
  {}

  lemma {:induction false} RunKeeps(s: Setup, w: World, steps: seq<Step>)
    requires Sane(s) && Inv(s, w)
    ensures Inv(s, Run(s, w, steps)) && KeysStay(w, Run(s, w, steps))
    decreases |steps|
  {
    hide Inv, Apply, Sane;
    if steps != [] {
      StepKeeps(s, w, steps[0]);
      RunKeeps(s, Apply(s, w, steps[0]), steps[1..]);
    }
  }

  lemma StartsOk(s: Setup)
    ensures Inv(s, NEW)
  {}

  // ---------------------------------------------------------------------------------------------
  // The theorems, for every interleaving

  /** A tenant's data key is written once: whatever runs later, it stays the blob it was. */
  lemma StoredOnce(s: Setup, before: seq<Step>, after: seq<Step>, tenant: string)
    requires Sane(s) && tenant in Run(s, NEW, before).dataKeys
    ensures var w, w' := Run(s, NEW, before), Run(s, Run(s, NEW, before), after);
      tenant in w'.dataKeys && w'.dataKeys[tenant] == w.dataKeys[tenant]
  {
    hide Run, Inv, Sane;
    StartsOk(s);
    RunKeeps(s, NEW, before);
    RunKeeps(s, Run(s, NEW, before), after);
  }

  /** All caches agree with the stored key, so they agree with one another. */
  lemma CachesAgree(s: Setup, steps: seq<Step>, one: nat, other: nat, tenant: string)
    requires Sane(s)
    requires var w := Run(s, NEW, steps); (one, tenant) in w.caches && (other, tenant) in w.caches
    ensures var w := Run(s, NEW, steps);
      && tenant in w.dataKeys
      && OpenDataKey(s.aead, w.dataKeys[tenant], s.master) == Ok(w.caches[(one, tenant)])
      && w.caches[(one, tenant)] == w.caches[(other, tenant)]
  {
    hide Run, OpenDataKey, Open, OpOk, Sealed, Sane;
    StartsOk(s);
    RunKeeps(s, NEW, steps);
    var w := Run(s, NEW, steps);
    assert IsDataKey(s, w, tenant, w.caches[(one, tenant)]) && IsDataKey(s, w, tenant, w.caches[(other, tenant)]);
  }

  /** A finished resolve, through whichever vault, answers what the name stood for when it was read; it never fails to open. */
  lemma ResolvesToWhatWasStored(s: Setup, steps: seq<Step>, i: nat)
    requires Sane(s)
    requires var w := Run(s, NEW, steps); i < |w.ops| && w.ops[i].job == Resolve && w.ops[i].phase.Done?
    ensures var op := Run(s, NEW, steps).ops[i]; op.phase.result == Ok(op.read)
  {
    hide Run, OpenDataKey, Open, Sealed, Sane;
    StartsOk(s);
    RunKeeps(s, NEW, steps);
    assert OpOk(s, Run(s, NEW, steps), Run(s, NEW, steps).ops[i]);
  }

  /** Resolving a model key stores no data key and touches no secret, whatever else is going on. */
  lemma ResolveOnlyReads(s: Setup, steps: seq<Step>, i: nat)
    requires Sane(s)
    requires var w := Run(s, NEW, steps); i < |w.ops| && w.ops[i].job == Resolve && s.kind(w.ops[i].vault) == ModelKeys
    ensures var w, w' := Run(s, NEW, steps), Apply(s, Run(s, NEW, steps), Advance(i));
      w'.dataKeys == w.dataKeys && w'.secrets == w.secrets && w'.meaning == w.meaning
  {
    hide Run, OpenDataKey, Open, Sealed, Sane, Seal;
    StartsOk(s);
    RunKeeps(s, NEW, steps);
    StepKeeps(s, Run(s, NEW, steps), Advance(i));
  }

  /** From any state the vaults can reach, a resolve that runs to its end answers what is stored, through any vault of the kind. */
  lemma AnyVaultResolves(s: Setup, steps: seq<Step>, vault: nat, tenant: string, name: string)
    requires Sane(s)
    ensures var w, n := Run(s, NEW, steps), (s.kind(vault), tenant, name);
      var i := |w.ops|;
      var end := Run(s, w, [Begin(vault, tenant, name, Resolve), Advance(i), Advance(i), Advance(i), Advance(i)]);
      && i < |end.ops|
      && end.ops[i].phase == Done(Ok(if n in w.meaning then Some(w.meaning[n]) else None))
  {
    hide Sane, Run, Apply, Inv;
    StartsOk(s);
    RunKeeps(s, NEW, steps);
    var w, i := Run(s, NEW, steps), |Run(s, NEW, steps).ops|;
    var begin := Begin(vault, tenant, name, Resolve);
    var w1 := Apply(s, w, begin);
    var w2 := Apply(s, w1, Advance(i));
    var w3 := Apply(s, w2, Advance(i));
    var w4 := Apply(s, w3, Advance(i));
    var w5 := Apply(s, w4, Advance(i));
    RunFive(s, w, begin, Advance(i), Advance(i), Advance(i), Advance(i));
    StepKeeps(s, w, begin);
    StepKeeps(s, w1, Advance(i));
    StepKeeps(s, w2, Advance(i));
    StepKeeps(s, w3, Advance(i));
    StepKeeps(s, w4, Advance(i));
    ResolveReads(s, w, vault, tenant, name);
    if w2.ops[i].phase.Done? {
      DoneStays(s, w2, i);
      DoneStays(s, w3, i);
      DoneStays(s, w4, i);
    } else {
      ResolveEnds(s, w2, i);
    }
    assert OpOk(s, w5, w5.ops[i]) by { OpIsOk(s, w5, i); }
    DoneAnswers(s, w5, w5.ops[i]);
  }

  lemma OpIsOk(s: Setup, w: World, i: nat)
    requires Inv(s, w) && i < |w.ops|
    ensures OpOk(s, w, w.ops[i])
  {
    hide OpOk;
  }

  /** The first step of a resolve reads what the name stands for. */
  lemma ResolveReads(s: Setup, w: World, vault: nat, tenant: string, name: string)
    requires Inv(s, w)
    ensures var n, i := (s.kind(vault), tenant, name), |w.ops|;
      var w2 := Apply(s, Apply(s, w, Begin(vault, tenant, name, Resolve)), Advance(i));
      && i < |w2.ops| && w2.ops[i].job == Resolve && w2.ops[i].read == (if n in w.meaning then Some(w.meaning[n]) else None)
      && (w2.ops[i].phase.Done? || (w2.ops[i].phase.NeedKey? && w2.ops[i].tenant in w2.dataKeys))
  {
    hide OpenDataKey, Open, OpOk, Seal;
    var n := (s.kind(vault), tenant, name);
    if n in w.secrets { assert Sealed(s, w, tenant, w.secrets[n], w.meaning[n]); }
  }

  lemma DoneStays(s: Setup, w: World, i: nat)
    requires i < |w.ops| && w.ops[i].phase.Done?
    ensures var w1 := Apply(s, w, Advance(i)); i < |w1.ops| && w1.ops[i] == w.ops[i]
  {}

  /** A resolve that has read a secret needs three steps at most. */
  lemma ResolveEnds(s: Setup, w: World, i: nat)
    requires Inv(s, w) && i < |w.ops| && w.ops[i].job == Resolve && w.ops[i].phase.NeedKey? && w.ops[i].tenant in w.dataKeys
    ensures var w' := Apply(s, Apply(s, Apply(s, w, Advance(i)), Advance(i)), Advance(i));
      i < |w'.ops| && w'.ops[i].job == Resolve && w'.ops[i].phase.Done? && w'.ops[i].read == w.ops[i].read
  {
    hide Open, OpenDataKey, OpOk, Seal, Sealed;
    assert OpenDataKey(s.aead, w.dataKeys[w.ops[i].tenant], s.master).Ok?;
    var w1 := Apply(s, w, Advance(i));
    var w2 := Apply(s, w1, Advance(i));
    assert w1.dataKeys == w.dataKeys && (w1.ops[i].phase.Finding? || w1.ops[i].phase.HaveKey?);
    assert w2.ops[i].phase.HaveKey? || w2.ops[i].phase.Done?;
  }

  lemma DoneAnswers(s: Setup, w: World, op: Op)
    requires OpOk(s, w, op) && op.job == Resolve && op.phase.Done?
    ensures op.phase.result == Ok(op.read)
  {}

  lemma RunFive(s: Setup, w: World, a: Step, b: Step, c: Step, d: Step, e: Step)
    ensures Run(s, w, [a, b, c, d, e]) == Apply(s, Apply(s, Apply(s, Apply(s, Apply(s, w, a), b), c), d), e)
  {
    hide Apply;
    assert [a, b, c, d, e][1..] == [b, c, d, e] && [b, c, d, e][1..] == [c, d, e] && [c, d, e][1..] == [d, e] && [d, e][1..] == [e] && [e][1..] == [];
    var w1 := Apply(s, w, a);
    var w2 := Apply(s, w1, b);
    var w3 := Apply(s, w2, c);
    assert Run(s, w3, [d, e]) == Run(s, Apply(s, w3, d), [e]);
    assert Run(s, w2, [c, d, e]) == Run(s, w3, [d, e]);
    assert Run(s, w1, [b, c, d, e]) == Run(s, w2, [c, d, e]);
  }
}
