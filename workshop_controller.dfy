/**
 * One reconciliation pass of the Workshop controller
 * (controllers/workshop_controller.go): fetch the Workshop, derive the console
 * URL and the apps hostname suffix from the console route, clamp the user
 * count, then either tear down (the object is being deleted) or add the
 * finalizer and run the twelve component steps in order, stopping at the first
 * that asks for a requeue or reports an error.
 *
 * The pass is specified by pure functions over a World (store and event log);
 * the class WorkshopReconciler runs it step by step against its own cluster
 * field, and each of its methods is proved equal to the function that
 * specifies it. The properties are lemmas about the functions.
 */
module Controller {
  import opened Wrappers
  import opened Meta
  import opened Cluster
  import CertManagerReconciler

  /** ctrl.Request: the namespaced name of the Workshop to reconcile. */
  datatype ReconcileRequest = ReconcileRequest(namespace: string, name: string)

  /** How a pass ends: with a reply to the work queue, or with a run-time panic. */
  datatype Termination = Returned(reply: Reply) | Panic

  const ConsoleRouteKey: Key := Key(RouteKind, "openshift-console", "console")

  /** The literal head of the console-host pattern `^console-openshift-console.(.*?)$`. */
  const ConsolePrefix: string := "console-openshift-console"

  const ForwardOrder: seq<Component> :=
    [Portal, Project, Bookbag, Nexus, Gitea, Pipelines, GitOps, CodeReadyWorkspace, ServiceMesh, Serverless,
     Vault, CertManager]

  /** handleDelete's order: not the reverse of ForwardOrder, and without Serverless or CertManager. */
  const TeardownOrder: seq<Component> :=
    [ServiceMesh, Bookbag, Pipelines, GitOps, Project, CodeReadyWorkspace, Portal, Vault, Gitea, Nexus]

  function WorkshopKey(req: ReconcileRequest): Key
  {
    Key(WorkshopKind, req.namespace, req.name)
  }

  predicate NoNewline(s: string)
  {
    forall i | 0 <= i < |s| :: s[i] != '\n'
  }

  /**
   * regexp.FindStringSubmatch with `^console-openshift-console.(.*?)$`: the
   * whole match and the group, or an empty (nil) slice. `.` matches any
   * character but a newline and `$` is the end of the text, so the group is
   * everything after the prefix and one more character.
   */
  function FindConsoleSubmatch(host: string): (m: seq<string>)
    ensures m == [] || |m| == 2
    ensures |m| == 2 ==>
              && m[0] == host
              && |host| > |ConsolePrefix|
              && host == ConsolePrefix + [host[|ConsolePrefix|]] + m[1]
              && host[|ConsolePrefix|] != '\n'
              && NoNewline(m[1])
  {
    var n := |ConsolePrefix|;
    if |host| > n && host[..n] == ConsolePrefix && NoNewline(host[n..]) then
      assert host == host[..n] + [host[n]] + host[n + 1..];
      assert host[n + 1..] == host[n..][1..];
      [host, host[n + 1..]]
    else []
  }

  /** Every host of the form prefix, one character, suffix (no newlines) matches, with the suffix as the group. */
  lemma ConsoleHostMatches(c: char, suffix: string)
    requires c != '\n' && NoNewline(suffix)
    ensures FindConsoleSubmatch(ConsolePrefix + [c] + suffix) == [ConsolePrefix + [c] + suffix, suffix]
  {
    var host := ConsolePrefix + [c] + suffix;
    var n := |ConsolePrefix|;
    assert host[..n] == ConsolePrefix;
    assert host[n..] == [c] + suffix;
    assert host[n + 1..] == suffix;
  }

  /** The user count handed to the steps: the spec's count, or 0 when that is negative. */
  function ClampUsers(n: int): (u: nat)
    ensures u >= n && (u == 0 || u == n)
  {
    if n < 0 then 0 else n
  }

  // ---------------------------------------------------------------------
  // Component steps and chains

  /**
   * One component step: the invocation is recorded, then the cert-manager
   * forward step runs as modelled, and every other step as the oracle says.
   */
  function Step(env: Environment, inv: Invocation, w: World): (r: (Reply, World))
  {
    var w1 := Logged(w, Invoke(inv));
    if inv.phase == Forward && inv.component == CertManager then
      CertManagerReconciler.ReconcileCertManager(env, inv.workshop, inv.args.users, w1)
    else
      var (reply, store) := env.oracles.step(inv, w1.store);
      (reply, World(store, w1.log))
  }

  /** A component step as a function of the world it runs in. */
  type Stepper = (Invocation, World) -> (Reply, World)

  function StepOf(env: Environment): Stepper
  {
    (inv, w) => Step(env, inv, w)
  }

  /** The steps of `order` one after another, returning the first reply that IsRequeued. */
  function RunChain(step: Stepper, phase: Phase, order: seq<Component>, workshop: Workshop, args: PassArgs,
                    w: World): (Reply, World)
    decreases |order|
  {
    if order == [] then (Success, w)
    else
      var (reply, w1) := step(Invocation(phase, order[0], workshop, args), w);
      if IsRequeued(reply) then (reply, w1)
      else RunChain(step, phase, order[1..], workshop, args, w1)
  }

  /** The chain of component steps the reconciler runs. */
  function Chain(env: Environment, phase: Phase, order: seq<Component>, workshop: Workshop, args: PassArgs,
                 w: World): (Reply, World)
  {
    RunChain(StepOf(env), phase, order, workshop, args, w)
  }

  /** The invocations of the given components, in order, with the same workshop and arguments. */
  function Invocations(phase: Phase, cs: seq<Component>, workshop: Workshop, args: PassArgs): (r: seq<Invocation>)
    ensures |r| == |cs|
    decreases |cs|
  {
    if cs == [] then [] else [Invocation(phase, cs[0], workshop, args)] + Invocations(phase, cs[1..], workshop, args)
  }

  /** A step that records exactly its own invocation in the log. */
  ghost predicate RecordsOwnInvocation(step: Stepper)
  {
    forall inv, w :: Invoked(step(inv, w).1.log) == Invoked(w.log) + [inv]
  }

  /** A step records exactly its own invocation: the cert-manager step invokes no other step. */
  lemma {:induction false} StepInvokesOnce(env: Environment, inv: Invocation, w: World)
    ensures Invoked(Step(env, inv, w).1.log) == Invoked(w.log) + [inv]
  {
    var w1 := Logged(w, Invoke(inv));
    assert w1.log[..|w1.log| - 1] == w.log;
    assert Invoked(w1.log) == Invoked(w.log) + [inv];
    if inv.phase == Forward && inv.component == CertManager {
      CertManagerReconciler.InvokesNoStep(env, inv.workshop, inv.args.users, w1);
    }
  }

  lemma StepsRecordOwnInvocation(env: Environment)
    ensures RecordsOwnInvocation(StepOf(env))
  {
    forall inv, w ensures Invoked(StepOf(env)(inv, w).1.log) == Invoked(w.log) + [inv] {
      StepInvokesOnce(env, inv, w);
    }
  }

  /**
   * A chain runs the steps of `order` in order up to step k and no further.
   * Either every step passed (k == |order|) and the chain succeeds, or step
   * k is the first whose reply IsRequeued, and that reply, unchanged, is the
   * chain's. `wk` is the world in which step k started (or the final world).
   */
  lemma {:induction false} ChainRun(step: Stepper, phase: Phase, order: seq<Component>, workshop: Workshop,
                                    args: PassArgs, w: World) returns (k: nat, wk: World)
    requires RecordsOwnInvocation(step)
    ensures k <= |order|
    ensures Invoked(wk.log) == Invoked(w.log) + Invocations(phase, order[..k], workshop, args)
    ensures k == |order| ==> RunChain(step, phase, order, workshop, args, w) == (Success, wk)
    ensures k < |order| ==>
              var r := step(Invocation(phase, order[k], workshop, args), wk);
              && IsRequeued(r.0)
              && RunChain(step, phase, order, workshop, args, w) == r
              && Invoked(r.1.log) == Invoked(w.log) + Invocations(phase, order[..k + 1], workshop, args)
    decreases |order|
  {
    if order == [] {
      k, wk := 0, w;
      assert order[..0] == [];
    } else {
      var inv := Invocation(phase, order[0], workshop, args);
      var (reply, w1) := step(inv, w);
      assert Invoked(w1.log) == Invoked(w.log) + [inv];
      if IsRequeued(reply) {
        k, wk := 0, w;
        assert order[..0] == [];
        InvocationsCons(phase, order, 1, workshop, args);
      } else {
        var k', wk' := ChainRun(step, phase, order[1..], workshop, args, w1);
        k, wk := k' + 1, wk';
        InvocationsCons(phase, order, k, workshop, args);
        AppendAssoc(Invoked(w.log), [inv], Invocations(phase, order[1..][..k'], workshop, args));
        if k' < |order[1..]| {
          InvocationsCons(phase, order, k + 1, workshop, args);
          AppendAssoc(Invoked(w.log), [inv], Invocations(phase, order[1..][..k' + 1], workshop, args));
        }
      }
    }
  }

  lemma AppendAssoc<T>(a: seq<T>, b: seq<T>, c: seq<T>)
    ensures (a + b) + c == a + (b + c)
  {
  }

  /** Invocations of a non-empty prefix: the first component's, then the rest's. */
  lemma InvocationsCons(phase: Phase, order: seq<Component>, k: nat, workshop: Workshop, args: PassArgs)
    requires 1 <= k <= |order|
    ensures Invocations(phase, order[..k], workshop, args)
            == [Invocation(phase, order[0], workshop, args)] + Invocations(phase, order[1..][..k - 1], workshop, args)
  {
    assert order[..k][1..] == order[1..][..k - 1];
  }

  // ---------------------------------------------------------------------
  // The pass

  /**
   * The deletion branch: with the finalizer listed, finalizeWorkshop runs; on
   * its error the pass returns it and keeps the finalizer, otherwise
   * handleDelete runs, its reply is discarded, and the finalizer is removed
   * and the Workshop updated.
   */
  function DeletionBranch(env: Environment, workshop: Workshop, args: PassArgs, w: World): (Reply, World)
  {
    if WorkshopFinalizer !in workshop.finalizers then (Success, w)
    else
      var w1 := Logged(w, Finalize(workshop.name));
      var err := env.oracles.finalize(workshop);
      if err.Some? then (Failure(err.value), w1)
      else
        var (_, w2) := Chain(env, Teardown, TeardownOrder, workshop, args, w1);
        var released := workshop.(finalizers := RemoveFinalizer(workshop.finalizers, WorkshopFinalizer));
        var (updateErr, w3) := Update(env.failing, w2, WorkshopObj(released));
        if updateErr.Some? then (Failure(updateErr.value), w3) else (Success, w3)
  }

  /** The forward branch: add the finalizer when missing, then the forward chain. */
  function ForwardBranch(env: Environment, workshop: Workshop, args: PassArgs, w: World): (Reply, World)
  {
    if WorkshopFinalizer !in workshop.finalizers then
      var withFinalizer := workshop.(finalizers := AddFinalizer(workshop.finalizers, WorkshopFinalizer));
      var (err, w1) := Update(env.failing, w, WorkshopObj(withFinalizer));
      if err.Some? then (Failure(err.value), w1)
      else Chain(env, Forward, ForwardOrder, withFinalizer, args, w1)
    else Chain(env, Forward, ForwardOrder, workshop, args, w)
  }

  /** Reconcile */
  function ReconcilePass(env: Environment, req: ReconcileRequest, w: World): (r: (Termination, World))
  {
    var (got, w1) := Get(env.failing, w, WorkshopKey(req));
    if got.Err? then
      if got.error.NotFound? then (Returned(Success), w1) else (Returned(Failure(got.error)), w1)
    else
      var workshop := got.value.workshop;
      var (gotRoute, w2) := Get(env.failing, w1, ConsoleRouteKey);
      if gotRoute.Err? then (Returned(Failure(gotRoute.error)), w2)
      else
        var host := gotRoute.value.route.host;
        var submatch := FindConsoleSubmatch(host);
        if |submatch| < 2 then (Panic, w2)
        else
          var args := PassArgs(ClampUsers(workshop.spec.user.number), submatch[1], "https://" + host);
          var (reply, w3) :=
            if workshop.deletionTimestamp.Some? then DeletionBranch(env, workshop, args, w2)
            else ForwardBranch(env, workshop, args, w2);
          (Returned(reply), w3)
  }

  // ---------------------------------------------------------------------
  // Properties of a pass

  /** The pass gets past its two reads and the console-host match. */
  predicate Reaches(env: Environment, req: ReconcileRequest, w: World)
  {
    && Request(GetVerb, WorkshopKey(req)) !in env.failing
    && WorkshopKey(req) in w.store && w.store[WorkshopKey(req)].WorkshopObj?
    && Request(GetVerb, ConsoleRouteKey) !in env.failing
    && ConsoleRouteKey in w.store && w.store[ConsoleRouteKey].RouteObj?
    && FindConsoleSubmatch(w.store[ConsoleRouteKey].route.host) != []
  }

  function StoredWorkshop(req: ReconcileRequest, w: World): Workshop
    requires WorkshopKey(req) in w.store && w.store[WorkshopKey(req)].WorkshopObj?
  {
    w.store[WorkshopKey(req)].workshop
  }

  function ConsoleHost(w: World): string
    requires ConsoleRouteKey in w.store && w.store[ConsoleRouteKey].RouteObj?
  {
    w.store[ConsoleRouteKey].route.host
  }

  /** The arguments every step of a pass receives, as the pass promises to derive them. */
  function ExpectedArgs(workshop: Workshop, host: string): PassArgs
    requires |host| > |ConsolePrefix|
  {
    PassArgs(ClampUsers(workshop.spec.user.number), host[|ConsolePrefix| + 1..], "https://" + host)
  }

  /** The log after the two reads every pass that reaches its branches makes. */
  function AfterReads(req: ReconcileRequest, w: World): World
  {
    Logged(Logged(w, Call(Request(GetVerb, WorkshopKey(req)))), Call(Request(GetVerb, ConsoleRouteKey)))
  }

  /**
   * A Workshop that is not found ends the pass with an empty result and no
   * error after that single read; a failed read returns its error. Either way
   * the cluster is untouched.
   */
  lemma MissingWorkshopIsIgnored(env: Environment, req: ReconcileRequest, w: World)
    ensures var get := Request(GetVerb, WorkshopKey(req));
      var r := ReconcilePass(env, req, w);
      && (get in env.failing ==> r == (Returned(Failure(Rejected(get))), World(w.store, w.log + [Call(get)])))
      && (get !in env.failing && WorkshopKey(req) !in w.store ==>
            r == (Returned(Success), World(w.store, w.log + [Call(get)])))
  {
  }

  /**
   * When the console route cannot be read the pass returns that error, before
   * any finalizer handling or component step, whether or not the Workshop is
   * being deleted.
   */
  lemma RouteErrorAborts(env: Environment, req: ReconcileRequest, w: World)
    requires Request(GetVerb, WorkshopKey(req)) !in env.failing && WorkshopKey(req) in w.store
    requires Request(GetVerb, ConsoleRouteKey) in env.failing || ConsoleRouteKey !in w.store
    ensures var r := ReconcilePass(env, req, w);
      var getRoute := Request(GetVerb, ConsoleRouteKey);
      && r.1 == AfterReads(req, w)
      && r.0 == Returned(Failure(if getRoute in env.failing then Rejected(getRoute) else NotFound(ConsoleRouteKey)))
  {
  }

  /**
   * A console host the pattern does not match leaves the submatch empty, and
   * indexing it panics: the pass stops after its two reads with nothing changed.
   */
  lemma UnmatchedHostPanics(env: Environment, req: ReconcileRequest, w: World)
    requires Request(GetVerb, WorkshopKey(req)) !in env.failing && WorkshopKey(req) in w.store
    requires Request(GetVerb, ConsoleRouteKey) !in env.failing && ConsoleRouteKey in w.store
    requires w.store[ConsoleRouteKey].RouteObj?
    requires !(|ConsoleHost(w)| > |ConsolePrefix| && ConsoleHost(w)[..|ConsolePrefix|] == ConsolePrefix)
    ensures ReconcilePass(env, req, w) == (Panic, AfterReads(req, w))
  {
  }

  /**
   * A pass that gets past its reads and the host match enters the deletion
   * branch when the Workshop has a deletion timestamp and the forward branch
   * otherwise, with the stored Workshop and the derived arguments.
   */
  lemma PassEntersBranch(env: Environment, req: ReconcileRequest, w: World)
    requires Reaches(env, req, w)
    ensures var ws := StoredWorkshop(req, w);
      var args := ExpectedArgs(ws, ConsoleHost(w));
      var b := if ws.deletionTimestamp.Some? then DeletionBranch(env, ws, args, AfterReads(req, w))
               else ForwardBranch(env, ws, args, AfterReads(req, w));
      ReconcilePass(env, req, w) == (Returned(b.0), b.1)
  {
    var host := ConsoleHost(w);
    assert FindConsoleSubmatch(host)[1] == host[|ConsolePrefix| + 1..];
  }

  /**
   * The deletion branch runs only teardown steps, a prefix of TeardownOrder,
   * and its reply's result is always empty.
   */
  lemma {:induction false} DeletionBranchInvokes(env: Environment, workshop: Workshop, args: PassArgs, w: World)
    returns (steps: seq<Component>)
    ensures var r := DeletionBranch(env, workshop, args, w);
      && steps <= TeardownOrder
      && Invoked(r.1.log) == Invoked(w.log) + Invocations(Teardown, steps, workshop, args)
      && r.0.result == EmptyResult
  {
    assert Invoked(w.log) + [] == Invoked(w.log);
    steps := [];
    if WorkshopFinalizer in workshop.finalizers {
      var w1 := Logged(w, Finalize(workshop.name));
      LoggedNoInvocation(w, Finalize(workshop.name));
      if env.oracles.finalize(workshop).None? {
        steps := TeardownInvokes(env, workshop, args, w1);
      }
    }
  }

  /** Teardown, then the update that releases the finalizer: only teardown steps are invoked. */
  lemma {:induction false} TeardownInvokes(env: Environment, workshop: Workshop, args: PassArgs, w: World)
    returns (steps: seq<Component>)
    ensures var wt := Chain(env, Teardown, TeardownOrder, workshop, args, w).1;
      var released := workshop.(finalizers := RemoveFinalizer(workshop.finalizers, WorkshopFinalizer));
      var w3 := Update(env.failing, wt, WorkshopObj(released)).1;
      && steps <= TeardownOrder
      && Invoked(w3.log) == Invoked(w.log) + Invocations(Teardown, steps, workshop, args)
  {
    var wt := Chain(env, Teardown, TeardownOrder, workshop, args, w).1;
    steps := ChainInvokes(env, Teardown, TeardownOrder, workshop, args, w);
    var released := workshop.(finalizers := RemoveFinalizer(workshop.finalizers, WorkshopFinalizer));
    UpdateNoInvocation(env.failing, wt, WorkshopObj(released));
  }

  /**
   * With a deletion timestamp only teardown steps run, all with the stored
   * Workshop and the derived arguments (users clamped at 0, the host's suffix
   * and the https console URL), and the reply's result is empty. Without the
   * finalizer nothing at all happens after the two reads.
   */
  lemma {:induction false} DeletingRunsOnlyTeardown(env: Environment, req: ReconcileRequest, w: World)
    returns (steps: seq<Component>)
    requires Reaches(env, req, w)
    requires StoredWorkshop(req, w).deletionTimestamp.Some?
    ensures var ws := StoredWorkshop(req, w);
      var r := ReconcilePass(env, req, w);
      && steps <= TeardownOrder
      && Invoked(r.1.log) == Invoked(w.log) + Invocations(Teardown, steps, ws, ExpectedArgs(ws, ConsoleHost(w)))
      && r.0.Returned? && r.0.reply.result == EmptyResult
      && (WorkshopFinalizer !in ws.finalizers ==> r == (Returned(Success), AfterReads(req, w)))
  {
    var ws := StoredWorkshop(req, w);
    PassEntersBranch(env, req, w);
    InvokedReads(req, w);
    steps := DeletionBranchInvokes(env, ws, ExpectedArgs(ws, ConsoleHost(w)), AfterReads(req, w));
  }

  /** The two reads record no invocation. */
  lemma InvokedReads(req: ReconcileRequest, w: World)
    ensures Invoked(AfterReads(req, w).log) == Invoked(w.log)
  {
    var w1 := Logged(w, Call(Request(GetVerb, WorkshopKey(req))));
    var w2 := AfterReads(req, w);
    assert w2.log[..|w2.log| - 1] == w1.log;
    assert w1.log[..|w1.log| - 1] == w.log;
  }

  /**
   * If finalizeWorkshop fails, its error is returned; no teardown step runs
   * and the Workshop, finalizer included, stays as stored.
   */
  lemma FinalizeFailureKeepsFinalizer(env: Environment, req: ReconcileRequest, w: World)
    requires Reaches(env, req, w)
    requires StoredWorkshop(req, w).deletionTimestamp.Some?
    requires WorkshopFinalizer in StoredWorkshop(req, w).finalizers
    requires env.oracles.finalize(StoredWorkshop(req, w)).Some?
    ensures var ws := StoredWorkshop(req, w);
      ReconcilePass(env, req, w)
      == (Returned(Failure(env.oracles.finalize(ws).value)), Logged(AfterReads(req, w), Finalize(ws.name)))
  {
    var host := ConsoleHost(w);
    assert FindConsoleSubmatch(host)[1] == host[|ConsolePrefix| + 1..];
  }

  /**
   * Once finalizeWorkshop succeeds the finalizer is removed and the Workshop
   * updated whatever the teardown chain replied, requeue and error included;
   * the pass then returns the update's outcome. When this was the Workshop's
   * last finalizer the server deletes it, so it is gone from the store.
   */
  lemma FinalizerRemovedWhateverTeardownReplies(env: Environment, req: ReconcileRequest, w: World)
    requires Reaches(env, req, w)
    requires StoredWorkshop(req, w).deletionTimestamp.Some?
    requires WorkshopFinalizer in StoredWorkshop(req, w).finalizers
    requires env.oracles.finalize(StoredWorkshop(req, w)).None?
    ensures var ws := StoredWorkshop(req, w);
      var update := Request(UpdateVerb, WorkshopKey(req));
      var wt := Chain(env, Teardown, TeardownOrder, ws, ExpectedArgs(ws, ConsoleHost(w)),
                      Logged(AfterReads(req, w), Finalize(ws.name))).1;
      var released := ws.(finalizers := RemoveFinalizer(ws.finalizers, WorkshopFinalizer));
      var r := ReconcilePass(env, req, w);
      && r.1.log == wt.log + [Call(update)]
      && (update !in env.failing && WorkshopKey(req) in wt.store ==>
            && r.0 == Returned(Success)
            && (released.finalizers == [] ==> r.1.store == wt.store - {WorkshopKey(req)})
            && (released.finalizers != [] ==>
                  && r.1.store == wt.store[WorkshopKey(req) := WorkshopObj(released)]
                  && WorkshopFinalizer !in r.1.store[WorkshopKey(req)].workshop.finalizers))
      && (update in env.failing ==> r.0 == Returned(Failure(Rejected(update))) && r.1.store == wt.store)
      && (update !in env.failing && WorkshopKey(req) !in wt.store ==>
            r.0 == Returned(Failure(NotFound(WorkshopKey(req)))) && r.1.store == wt.store)
  {
    var host := ConsoleHost(w);
    assert FindConsoleSubmatch(host)[1] == host[|ConsolePrefix| + 1..];
  }

  /**
   * A Workshop that is not being deleted and lacks the finalizer gets it
   * stored before the first component step: the update comes right after the
   * two reads and the forward chain starts from the updated store with the
   * updated Workshop. If the update fails its error is returned and no step
   * runs. A Workshop that already has the finalizer goes straight to the chain.
   */
  lemma FinalizerAddedBeforeFirstStep(env: Environment, req: ReconcileRequest, w: World)
    requires Reaches(env, req, w)
    requires StoredWorkshop(req, w).deletionTimestamp.None?
    ensures var ws := StoredWorkshop(req, w);
      var args := ExpectedArgs(ws, ConsoleHost(w));
      var update := Request(UpdateVerb, WorkshopKey(req));
      var added := ws.(finalizers := ws.finalizers + [WorkshopFinalizer]);
      var w2 := AfterReads(req, w);
      var r := ReconcilePass(env, req, w);
      && (WorkshopFinalizer !in ws.finalizers && update in env.failing ==>
            r == (Returned(Failure(Rejected(update))), Logged(w2, Call(update))))
      && (WorkshopFinalizer !in ws.finalizers && update !in env.failing ==>
            var chain := Chain(env, Forward, ForwardOrder, added,
                               args, World(w.store[WorkshopKey(req) := WorkshopObj(added)], w2.log + [Call(update)]));
            r == (Returned(chain.0), chain.1))
      && (WorkshopFinalizer in ws.finalizers ==>
            var chain := Chain(env, Forward, ForwardOrder, ws, args, w2);
            r == (Returned(chain.0), chain.1))
  {
    var host := ConsoleHost(w);
    assert FindConsoleSubmatch(host)[1] == host[|ConsolePrefix| + 1..];
  }

  /**
   * The forward branch runs only forward steps, a prefix of ForwardOrder,
   * each with the Workshop carrying the finalizer, and succeeds only if all
   * twelve ran.
   */
  lemma {:induction false} ForwardBranchInvokes(env: Environment, workshop: Workshop, args: PassArgs, w: World)
    returns (steps: seq<Component>)
    ensures var r := ForwardBranch(env, workshop, args, w);
      var withFinalizer := workshop.(finalizers := AddFinalizer(workshop.finalizers, WorkshopFinalizer));
      && steps <= ForwardOrder
      && Invoked(r.1.log) == Invoked(w.log) + Invocations(Forward, steps, withFinalizer, args)
      && (r.0 == Success ==> steps == ForwardOrder)
  {
    var withFinalizer := workshop.(finalizers := AddFinalizer(workshop.finalizers, WorkshopFinalizer));
    var start := w;
    if WorkshopFinalizer !in workshop.finalizers {
      var (err, w1) := Update(env.failing, w, WorkshopObj(withFinalizer));
      UpdateNoInvocation(env.failing, w, WorkshopObj(withFinalizer));
      if err.Some? {
        steps := [];
        assert Invoked(w.log) + [] == Invoked(w.log);
        return;
      }
      start := w1;
    } else {
      assert withFinalizer == workshop;
    }
    steps := ChainInvokes(env, Forward, ForwardOrder, withFinalizer, args, start);
  }

  /**
   * A chain invokes a prefix of its order: all of it when it succeeds, up to
   * and including the step that asked for the requeue otherwise.
   */
  lemma {:induction false} ChainInvokes(env: Environment, phase: Phase, order: seq<Component>, workshop: Workshop,
                                        args: PassArgs, w: World) returns (steps: seq<Component>)
    ensures var r := Chain(env, phase, order, workshop, args, w);
      && steps <= order
      && Invoked(r.1.log) == Invoked(w.log) + Invocations(phase, steps, workshop, args)
      && (r.0 == Success <==> steps == order && !IsRequeued(r.0))
  {
    StepsRecordOwnInvocation(env);
    var k, wk := ChainRun(StepOf(env), phase, order, workshop, args, w);
    steps := if k < |order| then order[..k + 1] else order;
    assert order[..|order|] == order;
    NotRequeuedIsSuccess(Chain(env, phase, order, workshop, args, w).0);
  }

  /**
   * A Workshop that is not being deleted runs only forward steps, a prefix of
   * ForwardOrder, each with the Workshop carrying the finalizer and with the
   * derived arguments (users clamped at 0, the host's suffix, the https
   * console URL). The pass succeeds only if all twelve ran.
   */
  lemma {:induction false} ForwardRunsOnlyForward(env: Environment, req: ReconcileRequest, w: World)
    returns (steps: seq<Component>)
    requires Reaches(env, req, w)
    requires StoredWorkshop(req, w).deletionTimestamp.None?
    ensures var ws := StoredWorkshop(req, w);
      var r := ReconcilePass(env, req, w);
      var withFinalizer := ws.(finalizers := AddFinalizer(ws.finalizers, WorkshopFinalizer));
      && steps <= ForwardOrder
      && Invoked(r.1.log) == Invoked(w.log) + Invocations(Forward, steps, withFinalizer, ExpectedArgs(ws, ConsoleHost(w)))
      && (r.0 == Returned(Success) ==> steps == ForwardOrder)
  {
    var ws := StoredWorkshop(req, w);
    PassEntersBranch(env, req, w);
    InvokedReads(req, w);
    steps := ForwardBranchInvokes(env, ws, ExpectedArgs(ws, ConsoleHost(w)), AfterReads(req, w));
  }

  // ---------------------------------------------------------------------
  // The reconciler

  /**
   * WorkshopReconciler: the controller's client (its cluster), scheme and the
   * code this model does not cover. The ghost log records what each method did.
   */
  class WorkshopReconciler {
    var cluster: Store
    ghost var log: seq<Event>
    const env: Environment

    ghost function World(): World
      reads this
    {
      Cluster.World(cluster, log)
    }

    constructor (env: Environment, cluster: Store)
      ensures this.env == env && World() == Cluster.World(cluster, [])
    {
      this.env := env;
      this.cluster := cluster;
      this.log := [];
    }

    /** r.Get */
    method Get(key: Key) returns (r: Result<Object, Error>)
      modifies this
      ensures (r, World()) == Cluster.Get(env.failing, old(World()), key)
    {
      var req := Request(GetVerb, key);
      log := log + [Call(req)];
      if req in env.failing {
        r := Err(Rejected(req));
      } else if key !in cluster {
        r := Err(NotFound(key));
      } else {
        r := Ok(cluster[key]);
      }
    }

    /** r.Create */
    method Create(obj: Object) returns (err: Option<Error>)
      modifies this
      ensures (err, World()) == Cluster.Create(env.failing, old(World()), obj)
    {
      var key := KeyOf(obj);
      var req := Request(CreateVerb, key);
      log := log + [Call(req)];
      if req in env.failing {
        err := Some(Rejected(req));
      } else if key in cluster {
        err := Some(AlreadyExists(key));
      } else {
        cluster := cluster[key := obj];
        err := None;
      }
    }

    /** r.Update */
    method Update(obj: Object) returns (err: Option<Error>)
      modifies this
      ensures (err, World()) == Cluster.Update(env.failing, old(World()), obj)
    {
      var key := KeyOf(obj);
      var req := Request(UpdateVerb, key);
      log := log + [Call(req)];
      if req in env.failing {
        err := Some(Rejected(req));
      } else if key !in cluster {
        err := Some(NotFound(key));
      } else if Released(obj) {
        cluster := cluster - {key};
        err := None;
      } else {
        cluster := cluster[key := obj];
        err := None;
      }
    }

    /** reconcileCertManager */
    method ReconcileCertManager(workshop: Workshop, users: int) returns (reply: Reply)
      modifies this
      ensures (reply, World()) == CertManagerReconciler.ReconcileCertManager(env, workshop, users, old(World()))
    {
      if workshop.spec.infrastructure.certManager.enabled {
        var result := AddCertManager(workshop, users);
        if IsRequeued(result) {
          return result;
        }
      }
      return Success;
    }

    /** addCertManager */
    method AddCertManager(workshop: Workshop, users: int) returns (reply: Reply)
      modifies this
      ensures (reply, World()) == CertManagerReconciler.AddCertManager(env, workshop, users, old(World()))
    {
      var channel := workshop.spec.infrastructure.certManager.channel;
      var csv := workshop.spec.infrastructure.certManager.clusterServiceVersion;
      var subscription := CertManagerReconciler.NewCertifiedSubscription(
        workshop, env.scheme, CertManagerReconciler.OperatorName, CertManagerReconciler.OperatorNamespace,
        CertManagerReconciler.OperatorName, channel, csv);
      var err := Create(SubscriptionObj(subscription));
      if err.Some? && !err.value.AlreadyExists? {
        return Failure(err.value);
      }

      log := log + [ApproveInstallPlan(csv, CertManagerReconciler.OperatorName, CertManagerReconciler.OperatorNamespace)];
      if !env.oracles.approveInstallPlan(csv, CertManagerReconciler.OperatorName,
                                         CertManagerReconciler.OperatorNamespace) {
        return CertManagerReconciler.RequeueNow;
      }

      var namespace := Kubernetes.NewNamespace(workshop, env.scheme, CertManagerReconciler.CertManagerName);
      err := Create(NamespaceObj(namespace));
      if err.Some? && !err.value.AlreadyExists? {
        return Failure(err.value);
      }

      var labels := map["app.kubernetes.io/part-of" := "certmanager"];
      var resource := CertManagerReconciler.NewCertManagerResource(
        workshop, env.scheme, CertManagerReconciler.CertManagerName, namespace.meta.name, labels);
      err := Create(CertManagerObj(resource));
      if err.Some? && !err.value.AlreadyExists? {
        return Failure(err.value);
      }
      return Success;
    }

    /**
     * One reconcileX or deleteX call, as the next step of a chain whose
     * remaining components are `pending`.
     */
    method RunStep(phase: Phase, c: Component, workshop: Workshop, args: PassArgs, ghost pending: seq<Component>)
      returns (reply: Reply, ghost rest: seq<Component>)
      requires pending != [] && pending[0] == c
      modifies this
      ensures rest == pending[1..]
      ensures (reply, World()) == Step(env, Invocation(phase, c, workshop, args), old(World()))
      ensures Chain(env, phase, pending, workshop, args, old(World()))
              == if IsRequeued(reply) then (reply, World()) else Chain(env, phase, rest, workshop, args, World())
    {
      var inv := Invocation(phase, c, workshop, args);
      log := log + [Invoke(inv)];
      if phase == Forward && c == CertManager {
        reply := ReconcileCertManager(workshop, args.users);
      } else {
        var (stepReply, store) := env.oracles.step(inv, cluster);
        reply, cluster := stepReply, store;
      }
      rest := pending[1..];
    }

    /** The twelve forward steps of Reconcile, each returning at once on a reply that IsRequeued. */
    method ReconcileComponents(workshop: Workshop, args: PassArgs) returns (reply: Reply)
      modifies this
      ensures (reply, World()) == Chain(env, Forward, ForwardOrder, workshop, args, old(World()))
    {
      ghost var pending := ForwardOrder;
      reply, pending := RunStep(Forward, Portal, workshop, args, pending);
      if IsRequeued(reply) { return; }
      reply, pending := RunStep(Forward, Project, workshop, args, pending);
      if IsRequeued(reply) { return; }
      reply, pending := RunStep(Forward, Bookbag, workshop, args, pending);
      if IsRequeued(reply) { return; }
      reply, pending := RunStep(Forward, Nexus, workshop, args, pending);
      if IsRequeued(reply) { return; }
      reply, pending := RunStep(Forward, Gitea, workshop, args, pending);
      if IsRequeued(reply) { return; }
      reply, pending := RunStep(Forward, Pipelines, workshop, args, pending);
      if IsRequeued(reply) { return; }
      reply, pending := RunStep(Forward, GitOps, workshop, args, pending);
      if IsRequeued(reply) { return; }
      reply, pending := RunStep(Forward, CodeReadyWorkspace, workshop, args, pending);
      if IsRequeued(reply) { return; }
      reply, pending := RunStep(Forward, ServiceMesh, workshop, args, pending);
      if IsRequeued(reply) { return; }
      reply, pending := RunStep(Forward, Serverless, workshop, args, pending);
      if IsRequeued(reply) { return; }
      reply, pending := RunStep(Forward, Vault, workshop, args, pending);
      if IsRequeued(reply) { return; }
      reply, pending := RunStep(Forward, CertManager, workshop, args, pending);
      if IsRequeued(reply) { return; }
      assert pending == [];
      return Success;
    }

    /** handleDelete: the ten teardown steps, each returning at once on a reply that IsRequeued. */
    method HandleDelete(workshop: Workshop, args: PassArgs) returns (reply: Reply)
      modifies this
      ensures (reply, World()) == Chain(env, Teardown, TeardownOrder, workshop, args, old(World()))
    {
      ghost var pending := TeardownOrder;
      reply, pending := RunStep(Teardown, ServiceMesh, workshop, args, pending);
      if IsRequeued(reply) { return; }
      reply, pending := RunStep(Teardown, Bookbag, workshop, args, pending);
      if IsRequeued(reply) { return; }
      reply, pending := RunStep(Teardown, Pipelines, workshop, args, pending);
      if IsRequeued(reply) { return; }
      reply, pending := RunStep(Teardown, GitOps, workshop, args, pending);
      if IsRequeued(reply) { return; }
      reply, pending := RunStep(Teardown, Project, workshop, args, pending);
      if IsRequeued(reply) { return; }
      reply, pending := RunStep(Teardown, CodeReadyWorkspace, workshop, args, pending);
      if IsRequeued(reply) { return; }
      reply, pending := RunStep(Teardown, Portal, workshop, args, pending);
      if IsRequeued(reply) { return; }
      reply, pending := RunStep(Teardown, Vault, workshop, args, pending);
      if IsRequeued(reply) { return; }
      reply, pending := RunStep(Teardown, Gitea, workshop, args, pending);
      if IsRequeued(reply) { return; }
      reply, pending := RunStep(Teardown, Nexus, workshop, args, pending);
      if IsRequeued(reply) { return; }
      assert pending == [];
      return Success;
    }

    /** finalizeWorkshop, recorded in the log. */
    method FinalizeWorkshop(workshop: Workshop) returns (err: Option<Error>)
      modifies this
      ensures err == env.oracles.finalize(workshop)
      ensures World() == Logged(old(World()), Finalize(workshop.name))
    {
      log := log + [Finalize(workshop.name)];
      err := env.oracles.finalize(workshop);
    }

    /** addFinalizer: controllerutil.AddFinalizer on the in-memory Workshop, then r.Update. */
    method AddFinalizerTo(workshop: Workshop) returns (updated: Workshop, err: Option<Error>)
      modifies this
      ensures updated == workshop.(finalizers := AddFinalizer(workshop.finalizers, WorkshopFinalizer))
      ensures (err, World()) == Cluster.Update(env.failing, old(World()), WorkshopObj(updated))
    {
      updated := workshop.(finalizers := AddFinalizer(workshop.finalizers, WorkshopFinalizer));
      err := Update(WorkshopObj(updated));
    }

    /** Reconcile */
    method Reconcile(req: ReconcileRequest) returns (t: Termination)
      modifies this
      ensures (t, World()) == ReconcilePass(env, req, old(World()))
    {
      var got := Get(WorkshopKey(req));
      if got.Err? {
        if got.error.NotFound? {
          return Returned(Success);
        }
        return Returned(Failure(got.error));
      }
      var workshop := got.value.workshop;

      var gotRoute := Get(ConsoleRouteKey);
      if gotRoute.Err? {
        return Returned(Failure(gotRoute.error));
      }
      var host := gotRoute.value.route.host;
      var openshiftConsoleURL := "https://" + host;
      var submatch := FindConsoleSubmatch(host);
      if |submatch| < 2 {
        return Panic;
      }
      var appsHostnameSuffix := submatch[1];

      var users := workshop.spec.user.number;
      if users < 0 {
        users := 0;
      }
      var args := PassArgs(users, appsHostnameSuffix, openshiftConsoleURL);

      if workshop.deletionTimestamp.Some? {
        if WorkshopFinalizer in workshop.finalizers {
          var err := FinalizeWorkshop(workshop);
          if err.Some? {
            return Returned(Failure(err.value));
          }
          var discarded := HandleDelete(workshop, args);
          workshop := workshop.(finalizers := RemoveFinalizer(workshop.finalizers, WorkshopFinalizer));
          err := Update(WorkshopObj(workshop));
          if err.Some? {
            return Returned(Failure(err.value));
          }
        }
        return Returned(Success);
      }

      if WorkshopFinalizer !in workshop.finalizers {
        var err;
        workshop, err := AddFinalizerTo(workshop);
        if err.Some? {
          return Returned(Failure(err.value));
        }
      }
      var reply := ReconcileComponents(workshop, args);
      return Returned(reply);
    }
  }
}
