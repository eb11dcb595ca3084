/** What is stored under which key, and what comes back: the vaults of `Vault`, read off the steps they take. */
module VaultAnswers {
  import opened Basics
  import opened Envelope
  import opened Vault

  // ---------------------------------------------------------------------------------------------
  // The master key wraps data keys, and data keys wrap secrets

  /** The nonce, the tag and the ciphertext of an encryption. */
  ghost predicate Wraps(s: Setup, blob: Bytes, plain: Bytes, key: Bytes, iv: Bytes) {
    var (tag, text) := s.aead.encrypt(plain, key, iv);
    blob == iv + tag + text
  }

  /** A drawn key, encrypted under the master key. */
  ghost predicate KeyWrapped(s: Setup, blob: Bytes, n: nat) {
    Wraps(s, blob, s.keys(n), s.master, s.ivs(n))
  }

  ghost predicate IsWrapped(s: Setup, blob: Bytes) { exists n: nat :: KeyWrapped(s, blob, n) }

  /** A secret is encrypted under the drawn key that is stored for its tenant. */
  ghost predicate SecretWrapped(s: Setup, w: World, name: Name)
    requires name in w.secrets && name in w.meaning
  {
    && name.1 in w.dataKeys
    && exists m: nat, n: nat :: KeyWrapped(s, w.dataKeys[name.1], m) && Wraps(s, w.secrets[name], w.meaning[name], s.keys(m), s.ivs(n))
  }

  ghost predicate Encrypted(s: Setup, w: World) {
    && w.secrets.Keys == w.meaning.Keys
    && (forall t :: t in w.dataKeys ==> IsWrapped(s, w.dataKeys[t]))
    && (forall i :: 0 <= i < |w.ops| && w.ops[i].phase.Ensuring? ==> IsWrapped(s, w.ops[i].phase.candidate))
    && (forall name :: name in w.secrets ==> SecretWrapped(s, w, name))
  }

  lemma WrappedOpens(s: Setup, blob: Bytes, n: nat)
    requires Sane(s) && KeyWrapped(s, blob, n)
    ensures OpenDataKey(s.aead, blob, s.master) == Ok(s.keys(n))
  {
    hide Open, Opens, Seal;
    SealWraps(s, s.keys(n), s.master, s.ivs(n));
    OpenOfSeal(s.aead, s.keys(n), s.master, s.ivs(n));
  }

  lemma SealWraps(s: Setup, plain: Bytes, key: Bytes, iv: Bytes)
    ensures forall blob :: Wraps(s, blob, plain, key, iv) <==> blob == Seal(s.aead, plain, key, iv)
  {}

  lemma WrappedStays(s: Setup, w: World, w': World, name: Name)
    requires name in w.secrets && name in w.meaning && SecretWrapped(s, w, name) && KeysStay(w, w')
    requires name in w'.secrets && name in w'.meaning && w'.secrets[name] == w.secrets[name] && w'.meaning[name] == w.meaning[name]
    ensures SecretWrapped(s, w', name)
  {
    hide Wraps;
  }

  /** A secret being stored is encrypted under the tenant's key. */
  lemma StoreWraps(s: Setup, w: World, op: Op)
    requires Sane(s) && Encrypted(s, w) && OpOk(s, w, op) && op.phase.HaveKey? && op.job.Store?
    ensures var w1, name := Work(s, w, op).0, NameOf(s, op);
      && name in w1.secrets && name in w1.meaning && w1.meaning == w.meaning[name := op.job.plain] && SecretWrapped(s, w1, name)
  {
    hide Open, OpenDataKey, Seal, Wraps, Opens;
    KeyOf(s, w, op);
    var m: nat :| KeyWrapped(s, w.dataKeys[op.tenant], m);
    WrappedOpens(s, w.dataKeys[op.tenant], m);
    SealWraps(s, op.job.plain, s.keys(m), s.ivs(w.draws));
    assert op.phase.dataKey == s.keys(m);
    var w1, name := Work(s, w, op).0, NameOf(s, op);
    assert KeyWrapped(s, w1.dataKeys[name.1], m) && Wraps(s, w1.secrets[name], op.job.plain, s.keys(m), s.ivs(w.draws));
  }

  lemma WorkWraps(s: Setup, w: World, op: Op)
    requires Sane(s) && Inv(s, w) && Encrypted(s, w) && OpOk(s, w, op)
    requires op.phase.Ensuring? ==> IsWrapped(s, op.phase.candidate)
    ensures var (w1, op1) := Work(s, w, op);
      Encrypted(s, w1) && w1.ops == w.ops && (op1.phase.Ensuring? ==> IsWrapped(s, op1.phase.candidate))
  {
    hide Open, OpenDataKey, Seal, Wraps, OpOk, Inv, SecretWrapped, Opens;
    DoneOk(s, w, op);
    WorkKeeps(s, w, op);
    var (w1, op1) := Work(s, w, op);
    if op1.phase.Ensuring? && op.phase.Finding? {
      SealWraps(s, s.keys(w.draws), s.master, s.ivs(w.draws));
      assert KeyWrapped(s, op1.phase.candidate, w.draws);
    }
    if op.phase.HaveKey? && op.job.Store? { StoreWraps(s, w, op); }
    forall name | name in w1.secrets ensures name in w1.meaning && SecretWrapped(s, w1, name) {
      if !(op.phase.HaveKey? && op.job.Store? && name == NameOf(s, op)) {
        WrappedStays(s, w, w1, name);
      }
    }
  }

  /** Other operations, the same stores. */
  lemma OpsWrap(s: Setup, w: World, w': World)
    requires Encrypted(s, w) && w'.dataKeys == w.dataKeys && w'.secrets == w.secrets && w'.meaning == w.meaning
    requires forall i :: 0 <= i < |w'.ops| && w'.ops[i].phase.Ensuring? ==> IsWrapped(s, w'.ops[i].phase.candidate)
    ensures Encrypted(s, w')
  {
    hide SecretWrapped, IsWrapped;
    forall name | name in w'.secrets ensures SecretWrapped(s, w', name) { WrappedStays(s, w, w', name); }
  }

  lemma ForgetWraps(s: Setup, w: World, name: Name)
    requires Encrypted(s, w)
    ensures Encrypted(s, w.(secrets := w.secrets - {name}, meaning := w.meaning - {name}))
  {
    hide SecretWrapped, IsWrapped;
    var w' := w.(secrets := w.secrets - {name}, meaning := w.meaning - {name});
    forall n | n in w'.secrets ensures SecretWrapped(s, w', n) { WrappedStays(s, w, w', n); }
  }

  lemma OpOf(s: Setup, w: World, i: nat)
    requires Inv(s, w) && Encrypted(s, w) && i < |w.ops|
    ensures OpOk(s, w, w.ops[i]) && (w.ops[i].phase.Ensuring? ==> IsWrapped(s, w.ops[i].phase.candidate))
  {
    hide OpOk, IsWrapped;
  }

  lemma StepWraps(s: Setup, w: World, step: Step)
    requires Sane(s) && Inv(s, w) && Encrypted(s, w)
    ensures Encrypted(s, Apply(s, w, step))
  {
    hide Work, OpOk, SecretWrapped, IsWrapped, Sane, Inv;
    match step {
      case Begin(vault, tenant, name, job) => OpsWrap(s, w, Apply(s, w, step));
      case Advance(i) =>
        if i < |w.ops| {
          OpOf(s, w, i);
          WorkWraps(s, w, w.ops[i]);
          OpsWrap(s, Work(s, w, w.ops[i]).0, Apply(s, w, step));
        }
      case Forget(vault, tenant, name) => ForgetWraps(s, w, (s.kind(vault), tenant, name));
    }
  }

  lemma {:induction false} RunWraps(s: Setup, w: World, steps: seq<Step>)
    requires Sane(s) && Inv(s, w) && Encrypted(s, w)
    ensures Encrypted(s, Run(s, w, steps))
    decreases |steps|
  {
    hide Inv, Apply, Sane, Encrypted;
    if steps != [] {
      StepKeeps(s, w, steps[0]);
      StepWraps(s, w, steps[0]);
      RunWraps(s, Apply(s, w, steps[0]), steps[1..]);
    }
  }

  /**
   * In every interleaving, what is stored for a tenant is a drawn data key encrypted under the master key, and each
   * of its secrets is encrypted under that data key, never under the master key itself.
   */
  lemma SecretsAreWrapped(s: Setup, steps: seq<Step>, name: Name)
    requires Sane(s) && name in Run(s, NEW, steps).secrets
    ensures var w := Run(s, NEW, steps); name in w.meaning && SecretWrapped(s, w, name)
  {
    hide Run, SecretWrapped, Sane;
    StartsOk(s);
    RunWraps(s, NEW, steps);
  }

  // ---------------------------------------------------------------------------------------------
  // What a name stands for

  /** The step writes the secret of a name, or removes it. */
  predicate Touches(s: Setup, w: World, step: Step, name: Name) {
    match step
    case Begin(_, _, _, _) => false
    case Advance(i) => i < |w.ops| && w.ops[i].job.Store? && w.ops[i].phase.HaveKey? && NameOf(s, w.ops[i]) == name
    case Forget(vault, tenant, forgotten) => (s.kind(vault), tenant, forgotten) == name
  }

  predicate LeftAlone(s: Setup, w: World, steps: seq<Step>, name: Name)
    decreases |steps|
  {
    steps == [] || (!Touches(s, w, steps[0], name) && LeftAlone(s, Apply(s, w, steps[0]), steps[1..], name))
  }

  function Meaning(w: World, name: Name): Option<Bytes> {
    if name in w.meaning then Some(w.meaning[name]) else None
  }

  lemma StepLeaves(s: Setup, w: World, step: Step, name: Name)
    requires !Touches(s, w, step, name)
    ensures Meaning(Apply(s, w, step), name) == Meaning(w, name)
  {
    hide OpenDataKey, Open, Seal;
  }

  lemma {:induction false} RunLeaves(s: Setup, w: World, steps: seq<Step>, name: Name)
    requires LeftAlone(s, w, steps, name)
    ensures Meaning(Run(s, w, steps), name) == Meaning(w, name)
    decreases |steps|
  {
    hide Apply, Touches;
    if steps != [] {
      StepLeaves(s, w, steps[0], name);
      RunLeaves(s, Apply(s, w, steps[0]), steps[1..], name);
    }
  }

  lemma {:induction false} RunJoins(s: Setup, w: World, a: seq<Step>, b: seq<Step>)
    ensures Run(s, w, a + b) == Run(s, Run(s, w, a), b)
    decreases |a|
  {
    hide Apply;
    if a == [] {
      assert a + b == b;
    } else {
      assert (a + b)[0] == a[0] && (a + b)[1..] == a[1..] + b;
      RunJoins(s, Apply(s, w, a[0]), a[1..], b);
    }
  }

  /** What a resolve through a vault comes to when it is begun now and let run to its end. */
  function Answer(s: Setup, w: World, vault: nat, tenant: string, name: string): (result: Option<Result<Option<Bytes>, Trouble>>) {
    var i := |w.ops|;
    var end := Run(s, w, [Begin(vault, tenant, name, Resolve), Advance(i), Advance(i), Advance(i), Advance(i)]);
    if i < |end.ops| && end.ops[i].phase.Done? then Some(end.ops[i].phase.result) else None
  }

  /** A store that has its key writes in its next step, and is done. */
  lemma StoreWrites(s: Setup, w: World, i: nat)
    requires i < |w.ops| && w.ops[i].job.Store? && w.ops[i].phase.HaveKey?
    ensures var w1 := Apply(s, w, Advance(i));
      Meaning(w1, NameOf(s, w.ops[i])) == Some(w.ops[i].job.plain) && w1.ops[i].phase == Done(Ok(None))
  {
    hide Seal;
  }

  /**
   * A secret that was stored is what every vault of the kind resolves its name to, from any later state, for as long as
   * no other store has written that name and nobody has forgotten it.
   */
  lemma StoredIsResolved(s: Setup, before: seq<Step>, i: nat, after: seq<Step>, vault: nat)
    requires Sane(s)
    requires var w := Run(s, NEW, before); i < |w.ops| && w.ops[i].job.Store? && w.ops[i].phase.HaveKey?
    requires var w := Run(s, NEW, before);
      s.kind(vault) == s.kind(w.ops[i].vault) && LeftAlone(s, Apply(s, w, Advance(i)), after, NameOf(s, w.ops[i]))
    ensures var w := Run(s, NEW, before);
      && Apply(s, w, Advance(i)).ops[i].phase == Done(Ok(None))
      && Answer(s, Run(s, NEW, before + [Advance(i)] + after), vault, w.ops[i].tenant, w.ops[i].name) == Some(Ok(Some(w.ops[i].job.plain)))
  {
    hide Run, Sane, Apply, LeftAlone, Answer;
    var w := Run(s, NEW, before);
    var op, w1 := w.ops[i], Apply(s, w, Advance(i));
    StoreWrites(s, w, i);
    RunLeaves(s, w1, after, NameOf(s, op));
    RunJoins(s, NEW, before + [Advance(i)], after);
    RunJoins(s, NEW, before, [Advance(i)]);
    RunOne(s, w, Advance(i));
    AnswerIs(s, before + [Advance(i)] + after, vault, op.tenant, op.name);
  }

  /** A name that was forgotten, or never stored, resolves to nothing. */
  lemma ForgottenIsNothing(s: Setup, before: seq<Step>, forgets: bool, forgetter: nat, after: seq<Step>, vault: nat, tenant: string, name: string)
    requires Sane(s) && (forgets ==> s.kind(forgetter) == s.kind(vault)) && (!forgets ==> before == [])
    requires var first := before + if forgets then [Forget(forgetter, tenant, name)] else [];
      LeftAlone(s, Run(s, NEW, first), after, (s.kind(vault), tenant, name))
    ensures var first := before + if forgets then [Forget(forgetter, tenant, name)] else [];
      Answer(s, Run(s, NEW, first + after), vault, tenant, name) == Some(Ok(None))
  {
    hide Run, Sane, Apply, LeftAlone, Answer;
    var n := (s.kind(vault), tenant, name);
    var first := before + if forgets then [Forget(forgetter, tenant, name)] else [];
    if forgets {
      RunJoins(s, NEW, before, [Forget(forgetter, tenant, name)]);
      RunOne(s, Run(s, NEW, before), Forget(forgetter, tenant, name));
      ForgetRemoves(s, Run(s, NEW, before), forgetter, tenant, name);
    } else {
      assert first == [];
      RunNone(s);
    }
    RunLeaves(s, Run(s, NEW, first), after, n);
    RunJoins(s, NEW, first, after);
    AnswerIs(s, first + after, vault, tenant, name);
  }

  lemma ForgetRemoves(s: Setup, w: World, vault: nat, tenant: string, name: string)
    ensures Meaning(Apply(s, w, Forget(vault, tenant, name)), (s.kind(vault), tenant, name)) == None
  {}

  lemma RunNone(s: Setup)
    ensures Run(s, NEW, []) == NEW
  {}

  lemma RunOne(s: Setup, w: World, step: Step)
    ensures Run(s, w, [step]) == Apply(s, w, step)
  {
    hide Apply;
    assert [step][1..] == [];
    assert Run(s, Apply(s, w, step), [step][1..]) == Apply(s, w, step);
  }

  lemma AnswerIs(s: Setup, steps: seq<Step>, vault: nat, tenant: string, name: string)
    requires Sane(s)
    ensures Answer(s, Run(s, NEW, steps), vault, tenant, name) == Some(Ok(Meaning(Run(s, NEW, steps), (s.kind(vault), tenant, name))))
  {
    hide Run, Sane;
    AnyVaultResolves(s, steps, vault, tenant, name);
  }

  /** How many steps an operation still has ahead of it, at most. */
  function Ahead(phase: Phase): nat {
    match phase
    case Getting => 5
    case NeedKey(_) => 4
    case Finding(_) => 3
    case Ensuring(_, _) => 2
    case HaveKey(_, _) => 1
    case Done(_) => 0
  }

  ghost predicate Storing(s: Setup, w: World, i: nat, name: Name, plain: Bytes, most: int) {
    && i < |w.ops| && w.ops[i].job == Store(plain) && NameOf(s, w.ops[i]) == name && Ahead(w.ops[i].phase) <= Max(most, 0)
    && (w.ops[i].phase.Done? && !Refused(s, w.ops[i]) ==> Meaning(w, name) == Some(plain))
  }

  lemma StoringStep(s: Setup, w: World, i: nat, name: Name, plain: Bytes, most: int)
    requires Sane(s) && Inv(s, w) && Storing(s, w, i, name, plain, most)
    ensures Inv(s, Apply(s, w, Advance(i))) && Storing(s, Apply(s, w, Advance(i)), i, name, plain, most - 1)
  {
    hide OpenDataKey, Open, Sane, Seal, Inv;
    StepKeeps(s, w, Advance(i));
    KeysOpen(s, w);
    CandidateOpens(s, w, i);
  }

  lemma KeysOpen(s: Setup, w: World)
    requires Inv(s, w)
    ensures forall t :: t in w.dataKeys ==> OpenDataKey(s.aead, w.dataKeys[t], s.master).Ok?
  {
    hide OpenDataKey, Open, OpOk;
  }

  lemma CandidateOpens(s: Setup, w: World, i: nat)
    requires Inv(s, w) && i < |w.ops|
    ensures OpOk(s, w, w.ops[i])
    ensures w.ops[i].phase.Ensuring? ==> OpenDataKey(s.aead, w.ops[i].phase.candidate, s.master).Ok?
  {
    hide OpenDataKey, Open;
  }

  /** A store begun in any reachable state is done four steps of its own later, and refused only for an empty model key. */
  lemma StoresFinish(s: Setup, steps: seq<Step>, vault: nat, tenant: string, name: string, plain: Bytes)
    requires Sane(s)
    ensures var w, n := Run(s, NEW, steps), (s.kind(vault), tenant, name);
      var i := |w.ops|;
      var end := Run(s, w, [Begin(vault, tenant, name, Store(plain)), Advance(i), Advance(i), Advance(i), Advance(i)]);
      i < |end.ops| &&
      if s.kind(vault) == ModelKeys && plain == [] then end.ops[i].phase == Done(Err(EmptyKey))
      else end.ops[i].phase == Done(Ok(None)) && Meaning(end, n) == Some(plain)
  {
    hide Sane, Apply, Inv, Meaning, Run;
    StartsOk(s);
    RunKeeps(s, NEW, steps);
    var w, n := Run(s, NEW, steps), (s.kind(vault), tenant, name);
    var i := |w.ops|;
    var begin := Begin(vault, tenant, name, Store(plain));
    var w1 := Apply(s, w, begin);
    StepKeeps(s, w, begin);
    assert Storing(s, w1, i, n, plain, 4) by { BeginsStoring(s, w, vault, tenant, name, plain); }
    StoringStep(s, w1, i, n, plain, 4);
    StoringStep(s, Apply(s, w1, Advance(i)), i, n, plain, 3);
    StoringStep(s, Apply(s, Apply(s, w1, Advance(i)), Advance(i)), i, n, plain, 2);
    StoringStep(s, Apply(s, Apply(s, Apply(s, w1, Advance(i)), Advance(i)), Advance(i)), i, n, plain, 1);
    RunFive(s, w, begin, Advance(i), Advance(i), Advance(i), Advance(i));
    var end := Run(s, w, [begin, Advance(i), Advance(i), Advance(i), Advance(i)]);
    CandidateOpens(s, end, i);
  }

  lemma BeginsStoring(s: Setup, w: World, vault: nat, tenant: string, name: string, plain: Bytes)
    ensures Storing(s, Apply(s, w, Begin(vault, tenant, name, Store(plain))), |w.ops|, (s.kind(vault), tenant, name), plain, 4)
  {}
}
