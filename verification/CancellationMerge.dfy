/** Merged cancellation tokens: a graph of cancellation states, each merged one registered with its inputs.
    Requests spread along the registrations, one callback at a time and in any interleaving. */
module CancellationMerge {
  import opened Options

  type Id = nat

  /** An argument of cancellation_token_merge: a possibly empty token, copied or moved. */
  datatype Arg = Arg(token: Option<Id>, copy: bool)

  /** A state made by a source has source references; a merged one has inputs instead, of which its constructor
      has been through the first `done`. */
  datatype Node =
    Node(sources: nat, merging: bool, inputs: seq<Id>, done: nat, cancelled: bool, callbacks: set<Id>, todo: set<Id>)

  type Graph = map<Id, Node>

  predicate CanBeCancelled(n: Node) {
    n.sources > 0 || n.merging || n.cancelled
  }

  predicate Cancelled(g: Graph, t: Option<Id>) {
    t.Some? && t.value in g && g[t.value].cancelled
  }

  // ---------------------------------------------------------------- which inputs are kept

  /** Empties are dropped, and so is a token equal to the last one kept. */
  function Kept(args: seq<Arg>, prev: Option<Id>): seq<Arg> {
    if args == [] then []
    else if args[0].token.None? || args[0].token == prev then Kept(args[1..], prev)
    else [args[0]] + Kept(args[1..], args[0].token)
  }

  function Tokens(args: seq<Arg>, copy: bool): seq<Id> {
    if args == [] then []
    else (if args[0].copy == copy && args[0].token.Some? then [args[0].token.value] else []) + Tokens(args[1..], copy)
  }

  /** The loop of the merge: copied and moved tokens are collected apart. */
  method Collect(args: seq<Arg>) returns (copies: seq<Id>, moves: seq<Id>)
    ensures copies == Tokens(Kept(args, None), true) && moves == Tokens(Kept(args, None), false)
  {
    copies, moves := [], [];
    var prev := None;
    for i := 0 to |args|
      invariant copies + Tokens(Kept(args[i..], prev), true) == Tokens(Kept(args, None), true)
      invariant moves + Tokens(Kept(args[i..], prev), false) == Tokens(Kept(args, None), false)
    {
      var a := args[i];
      assert args[i..][1..] == args[i + 1..];
      if a.token.Some? && a.token != prev {
        TokensHead(a, Kept(args[i + 1..], a.token));
        if a.copy { copies := copies + [a.token.value]; } else { moves := moves + [a.token.value]; }
        prev := a.token;
      }
    }
    assert args[|args|..] == [];
  }

  lemma TokensHead(a: Arg, rest: seq<Arg>)
    requires a.token.Some?
    ensures Tokens([a] + rest, a.copy) == [a.token.value] + Tokens(rest, a.copy)
    ensures Tokens([a] + rest, !a.copy) == Tokens(rest, !a.copy)
  {
    assert ([a] + rest)[1..] == rest;
  }

  /** Nothing is lost: the kept tokens are exactly the non-empty ones. */
  lemma {:induction false} KeptTokens(args: seq<Arg>, prev: Option<Id>, id: Id)
    ensures (exists i :: 0 <= i < |args| && args[i].token == Some(id)) ==>
              prev == Some(id) || exists i :: 0 <= i < |Kept(args, prev)| && Kept(args, prev)[i].token == Some(id)
    ensures (exists i :: 0 <= i < |Kept(args, prev)| && Kept(args, prev)[i].token == Some(id)) ==>
              exists i :: 0 <= i < |args| && args[i].token == Some(id)
    ensures forall i :: 0 <= i < |Kept(args, prev)| ==> Kept(args, prev)[i].token.Some?
  {
    if args != [] {
      var a, rest := args[0], args[1..];
      var skip := a.token.None? || a.token == prev;
      var prev' := if skip then prev else a.token;
      KeptTokens(rest, prev', id);
      var kept, keptRest := Kept(args, prev), Kept(rest, prev');
      if i :| 0 <= i < |args| && args[i].token == Some(id) {
        if i > 0 { assert rest[i - 1].token == Some(id); }
        if !skip { assert kept[0] == a; }
        if j :| 0 <= j < |keptRest| && keptRest[j].token == Some(id) {
          assert kept[if skip then j else j + 1].token == Some(id);
        }
      }
      if i :| 0 <= i < |kept| && kept[i].token == Some(id) {
        if !skip && i == 0 { assert args[0].token == Some(id); }
        else { assert keptRest[if skip then i else i - 1].token == Some(id); var j :| 0 <= j < |rest| &&
            rest[j].token == Some(id); assert args[j + 1].token == Some(id); }
      }
    }
  }

  lemma {:induction false} TokensMember(args: seq<Arg>, id: Id)
    requires forall i :: 0 <= i < |args| ==> args[i].token.Some?
    ensures id in Tokens(args, true) + Tokens(args, false) <==> exists i :: 0 <= i < |args| && args[i].token == Some(id)
    ensures |Tokens(args, true)| + |Tokens(args, false)| == |args|
  {
    if args != [] {
      var rest := args[1..];
      TokensMember(rest, id);
      assert args == [args[0]] + rest;
      TokensHead(args[0], rest);
      if i :| 0 <= i < |args| && args[i].token == Some(id) {
        if i > 0 { assert rest[i - 1].token == Some(id); }
      }
      if i :| 0 <= i < |rest| && rest[i].token == Some(id) { assert args[i + 1].token == Some(id); }
    }
  }

  /** What the merge hands to the merged state: every non-empty input, and nothing else. */
  function Inputs(args: seq<Arg>): seq<Id> {
    Tokens(Kept(args, None), true) + Tokens(Kept(args, None), false)
  }

  lemma InputsAreArgs(args: seq<Arg>, id: Id)
    ensures id in Inputs(args) <==> exists i :: 0 <= i < |args| && args[i].token == Some(id)
    ensures |Inputs(args)| == |Kept(args, None)|
  {
    KeptTokens(args, None, id);
    TokensMember(Kept(args, None), id);
  }

  // ---------------------------------------------------------------- steps

  ghost predicate NewSource(g: Graph, id: Id, g': Graph) {
    id !in g && (forall m :: m in g ==> m < id) && g' == g[id := Node(1, false, [], 0, false, {}, {})]
  }

  ghost predicate CopySource(g: Graph, id: Id, g': Graph) {
    id in g && g[id].sources > 0 && g' == g[id := g[id].(sources := g[id].sources + 1)]
  }

  ghost predicate DropSource(g: Graph, id: Id, g': Graph) {
    id in g && g[id].sources > 0 && g' == g[id := g[id].(sources := g[id].sources - 1)]
  }

  /** requestCancellation on one state: set the flag and take over its callbacks, unless it was set before. */
  function Flag(n: Node): Node {
    if n.cancelled then n else n.(cancelled := true, todo := n.callbacks, callbacks := {})
  }

  ghost predicate Request(g: Graph, id: Id, g': Graph) {
    id in g && g[id].sources > 0 && g' == g[id := Flag(g[id])]
  }

  /** The next callback of a cancelled state runs: it requests cancellation of a merged state. */
  ghost predicate RunCallback(g: Graph, id: Id, m: Id, g': Graph) {
    && id in g && m in g && m != id && m in g[id].todo
    && g' == g[id := g[id].(todo := g[id].todo - {m})][m := Flag(g[m])]
  }

  /** Its constructor has returned, so that there can be a token for it. */
  predicate Finished(n: Node) {
    n.done == |n.inputs|
  }

  /** A merged state is allocated; its constructor has not looked at any input yet. */
  ghost predicate Allocate(g: Graph, args: seq<Arg>, id: Id, g': Graph) {
    && (forall i :: 0 <= i < |args| && args[i].token.Some? ==>
        args[i].token.value in g && Finished(g[args[i].token.value]))
    && |Inputs(args)| >= 2 && id !in g && (forall m :: m in g ==> m < id)
    && g' == g[id := Node(0, true, Inputs(args), 0, false, {}, {})]
  }

  /** The constructor comes to its next input, and tryAddCallback runs the callback at once if that input is
      cancelled, registers it if it may still be, and leaves alone one that nobody can cancel any more. */
  ghost predicate AttachNext(g: Graph, id: Id, g': Graph) {
    && id in g && g[id].done < |g[id].inputs| && g[id].inputs[g[id].done] in g
    && var i, n := g[id].inputs[g[id].done], g[id].(done := g[id].done + 1);
       g' == if g[i].cancelled then g[id := Flag(n)]
             else if CanBeCancelled(g[i]) then g[id := n][i := g[i].(callbacks := g[i].callbacks + {id})]
             else g[id := n]
  }

  ghost predicate Step(g: Graph, g': Graph) {
    || (exists id :: NewSource(g, id, g') || CopySource(g, id, g') || DropSource(g, id, g') || Request(g, id, g'))
    || (exists id, m :: RunCallback(g, id, m, g'))
    || (exists args, id :: Allocate(g, args, id, g'))
    || (exists id :: AttachNext(g, id, g'))
  }

  ghost predicate IsRun(run: seq<Graph>) {
    |run| > 0 && run[0] == map[] && forall i :: 0 < i < |run| ==> Step(run[i - 1], run[i])
  }

  // ---------------------------------------------------------------- what every run keeps

  /** Input i keeps merged state m informed: it has told it, is about to, has it registered, or is dead. */
  ghost predicate Informs(g: Graph, i: Id, m: Id)
    requires m in g
  {
    && i in g && i < m
    && (g[i].cancelled ==> g[m].cancelled || m in g[i].todo)
    && (!g[i].cancelled ==> m in g[i].callbacks || !CanBeCancelled(g[i]))
  }

  /** A cancelled merged state has a cancelled input. */
  ghost predicate Caused(g: Graph, m: Id)
    requires m in g
  {
    g[m].cancelled ==> exists i :: i in g[m].inputs && i in g && g[i].cancelled
  }

  /** The inputs exist, and those the constructor has been through keep m informed. */
  ghost predicate InputsOK(g: Graph, m: Id)
    requires m in g
  {
    && g[m].done <= |g[m].inputs| && (g[m].inputs != [] ==> g[m].merging)
    && (forall i :: i in g[m].inputs ==> i in g && i < m)
    && (forall x :: 0 <= x < g[m].done ==> Informs(g, g[m].inputs[x], m))
  }

  ghost predicate NodeOK(g: Graph, m: Id)
    requires m in g
  {
    && (g[m].merging ==> g[m].sources == 0 && Caused(g, m))
    && InputsOK(g, m)
    && (forall c :: c in g[m].callbacks || c in g[m].todo ==> c in g && g[c].merging && m in g[c].inputs)
    && (g[m].todo != {} ==> g[m].cancelled)
  }

  ghost predicate Inv(g: Graph) {
    forall m :: m in g ==> NodeOK(g, m)
  }

  /** States only ever become cancelled, and a dead one stays dead. */
  ghost predicate Later(g: Graph, g': Graph) {
    forall i :: i in g ==> i in g' && LaterNode(g[i], g'[i])
  }

  ghost predicate LaterNode(a: Node, b: Node) {
    && (a.cancelled ==> b.cancelled) && (!CanBeCancelled(a) ==> !CanBeCancelled(b))
    && b.inputs == a.inputs && a.done <= b.done && b.merging == a.merging
  }

  lemma CausedKept(g: Graph, g': Graph, m: Id)
    requires m in g && m in g' && Later(g, g') && Caused(g, m) && g'[m].inputs == g[m].inputs &&
        (g'[m].cancelled ==> g[m].cancelled)
    ensures Caused(g', m)
  {
    if g[m].cancelled {
      var i :| i in g[m].inputs && i in g && g[i].cancelled;
      assert LaterNode(g[i], g'[i]);
    }
  }

  lemma SourceInv(g: Graph, id: Id, g': Graph)
    requires Inv(g) && (NewSource(g, id, g') || CopySource(g, id, g') || DropSource(g, id, g'))
    ensures Inv(g') && Later(g, g')
  {
    assert Later(g, g');
    forall m | m in g' ensures NodeOK(g', m) {
      if m in g {
        assert NodeOK(g, m);
        if g[m].merging { CausedKept(g, g', m); }
        forall x | 0 <= x < g'[m].done ensures Informs(g', g'[m].inputs[x], m) { assert Informs(g, g[m].inputs[x], m); }
      }
    }
  }

  /** Setting the flag of a state whose cause is already there. */
  lemma FlagInv(g: Graph, id: Id, g': Graph)
    requires Inv(g) && id in g && g' == g[id := Flag(g[id])]
    requires g[id].merging ==> exists i :: i in g[id].inputs && i in g && g[i].cancelled
    requires CanBeCancelled(g[id])
    ensures Inv(g') && Later(g, g')
  {
    assert NodeOK(g, id);
    assert Later(g, g');
    forall m | m in g' ensures NodeOK(g', m) {
      assert NodeOK(g, m);
      if m != id {
        if g[m].merging { CausedKept(g, g', m); }
      } else if g[id].merging {
        var i :| i in g[id].inputs && i in g && g[i].cancelled;
        assert LaterNode(g[i], g'[i]);
      }
      forall x | 0 <= x < g'[m].done ensures Informs(g', g'[m].inputs[x], m) { assert Informs(g, g[m].inputs[x], m); }
    }
  }

  /** Striking a merged state off the list of one that has just told it. */
  lemma StrikeInv(g: Graph, id: Id, m: Id, g': Graph)
    requires Inv(g) && id in g && m in g && g[m].cancelled && g' == g[id := g[id].(todo := g[id].todo - {m})]
    ensures Inv(g') && Later(g, g')
  {
    assert NodeOK(g, id);
    assert Later(g, g');
    forall k | k in g' ensures NodeOK(g', k) {
      assert NodeOK(g, k);
      if g[k].merging { CausedKept(g, g', k); }
      forall x | 0 <= x < g'[k].done ensures Informs(g', g'[k].inputs[x], k) { assert Informs(g, g[k].inputs[x], k); }
    }
  }

  lemma CallbackInv(g: Graph, id: Id, m: Id, g': Graph)
    requires Inv(g) && RunCallback(g, id, m, g')
    ensures Inv(g') && Later(g, g')
  {
    assert NodeOK(g, id) && NodeOK(g, m);
    hide Inv, Later, NodeOK;
    var mid := g[m := Flag(g[m])];
    CallbackCause(g, id, m);
    FlagInv(g, m, mid);
    StrikeInv(mid, id, m, g');
    LaterTransitive(g, mid, g');
  }

  lemma CallbackCause(g: Graph, id: Id, m: Id)
    requires Inv(g) && id in g && m in g[id].todo
    ensures m in g && CanBeCancelled(g[m]) && id in g[m].inputs && g[id].cancelled
  {
    assert NodeOK(g, id);
  }

  lemma AllocateInv(g: Graph, args: seq<Arg>, id: Id, g': Graph)
    requires Inv(g) && Allocate(g, args, id, g')
    ensures Inv(g') && Later(g, g')
  {
    assert Later(g, g');
    forall i | i in Inputs(args) ensures i in g && i < id { InputsAreArgs(args, i); }
    forall m | m in g' ensures NodeOK(g', m) {
      if m != id {
        assert NodeOK(g, m);
        if g[m].merging { CausedKept(g, g', m); }
        forall x | 0 <= x < g'[m].done ensures Informs(g', g'[m].inputs[x], m) { assert Informs(g, g[m].inputs[x], m); }
      }
    }
  }

  /** One registration, between whatever else happens to the inputs. */
  lemma AttachInv(g: Graph, id: Id, g': Graph)
    requires Inv(g) && AttachNext(g, id, g')
    ensures Inv(g') && Later(g, g')
  {
    AttachLater(g, id, g');
    forall m | m in g' ensures NodeOK(g', m) {
      assert NodeOK(g, m);
      AttachCause(g, id, g', m);
      AttachCallbacks(g, id, g', m);
      assert InputsOK(g', m) by {
        assert forall i :: i in g'[m].inputs ==> i in g' && i < m;
        forall x | 0 <= x < g'[m].done ensures Informs(g', g'[m].inputs[x], m) { AttachInforms(g, id, g', m, x); }
      }
    }
  }

  lemma NodeAt(g: Graph, m: Id)
    requires Inv(g) && m in g
    ensures NodeOK(g, m)
  {}

  lemma LaterAt(g: Graph, g': Graph, m: Id)
    requires Later(g, g') && m in g
    ensures m in g' && LaterNode(g[m], g'[m])
  {}

  /** The input at hand was there before. */
  lemma NextInput(g: Graph, id: Id)
    requires Inv(g) && id in g && g[id].done < |g[id].inputs|
    ensures var i := g[id].inputs[g[id].done]; i in g[id].inputs && i in g && i < id && g[id].merging
  {
    assert NodeOK(g, id);
    assert g[id].inputs[g[id].done] in g[id].inputs;
  }

  lemma AttachLater(g: Graph, id: Id, g': Graph)
    requires Inv(g) && AttachNext(g, id, g')
    ensures Later(g, g') && g'.Keys == g.Keys
    ensures forall m :: m in g ==>
        g'[m].sources == g[m].sources && (m != id ==> g'[m].done == g[m].done && g'[m].todo == g[m].todo)
  {
    hide Inv;
    NextInput(g, id);
  }

  lemma AttachInforms(g: Graph, id: Id, g': Graph, m: Id, x: nat)
    requires Inv(g) && AttachNext(g, id, g') && Later(g, g') && m in g && m in g' && x < g'[m].done &&
        x < |g'[m].inputs|
    requires m != id ==> g'[m].done == g[m].done
    ensures Informs(g', g'[m].inputs[x], m)
  {
    hide Inv, Later, Caused;
    NodeAt(g, m);
    LaterAt(g, g', m);
    NextInput(g, id);
    if x < g[m].done { assert Informs(g, g[m].inputs[x], m); }
  }

  lemma AttachCallbacks(g: Graph, id: Id, g': Graph, m: Id)
    requires Inv(g) && AttachNext(g, id, g') && Later(g, g') && m in g && m in g'
    ensures forall c :: c in g'[m].callbacks || c in g'[m].todo ==> c in g' && g'[c].merging && m in g'[c].inputs
    ensures g'[m].todo != {} ==> g'[m].cancelled
  {
    hide Inv, Later, InputsOK, Caused, CanBeCancelled;
    NodeAt(g, m);
    NextInput(g, id);
    forall c | c in g'[m].callbacks || c in g'[m].todo ensures c in g' && g'[c].merging && m in g'[c].inputs {
      if c in g { LaterAt(g, g', c); }
    }
  }

  lemma AttachCause(g: Graph, id: Id, g': Graph, m: Id)
    requires Inv(g) && AttachNext(g, id, g') && Later(g, g') && m in g
    ensures m in g' && (g'[m].merging ==> g'[m].sources == 0 && Caused(g', m))
  {
    assert NodeOK(g, m);
    var i := g[id].inputs[g[id].done];
    if m == id && g[i].cancelled {
      assert i in g'[m].inputs && LaterNode(g[i], g'[i]);
    } else if g[m].merging {
      CausedKept(g, g', m);
    }
  }

  lemma LaterTransitive(a: Graph, b: Graph, c: Graph)
    requires Later(a, b) && Later(b, c)
    ensures Later(a, c)
  {
    forall i | i in a ensures i in c && LaterNode(a[i], c[i]) { assert LaterNode(a[i], b[i]) && LaterNode(b[i], c[i]); }
  }

  lemma StepInv(g: Graph, g': Graph)
    requires Inv(g) && Step(g, g')
    ensures Inv(g') && Later(g, g')
  {
    hide Inv, Later, RunCallback, Allocate, AttachNext;
    if exists args, id :: Allocate(g, args, id, g') {
      var args, id :| Allocate(g, args, id, g');
      AllocateInv(g, args, id, g');
    } else if exists id :: AttachNext(g, id, g') {
      var id :| AttachNext(g, id, g');
      AttachInv(g, id, g');
    } else if exists id, m :: RunCallback(g, id, m, g') {
      var id, m :| RunCallback(g, id, m, g');
      CallbackInv(g, id, m, g');
    } else {
      var id :| NewSource(g, id, g') || CopySource(g, id, g') || DropSource(g, id, g') || Request(g, id, g');
      if Request(g, id, g') { RequestInv(g, id, g'); } else { SourceInv(g, id, g'); }
    }
  }

  lemma RequestInv(g: Graph, id: Id, g': Graph)
    requires Inv(g) && Request(g, id, g')
    ensures Inv(g') && Later(g, g')
  {
    assert NodeOK(g, id);
    FlagInv(g, id, g');
  }

  lemma {:induction false} RunInv(run: seq<Graph>, i: nat)
    requires IsRun(run) && i < |run|
    ensures Inv(run[i])
  {
    hide Inv, Step;
    if i == 0 {
      EmptyInv();
    } else {
      RunInv(run, i - 1);
      assert Step(run[i - 1], run[i]);
      StepInv(run[i - 1], run[i]);
    }
  }

  lemma EmptyInv()
    ensures Inv(map[])
  {}

  lemma {:induction false} RunLater(run: seq<Graph>, i: nat, j: nat)
    requires IsRun(run) && i <= j < |run|
    ensures Later(run[i], run[j])
  {
    hide Step;
    if i < j {
      RunLater(run, i, j - 1);
      RunInv(run, j - 1);
      assert Step(run[j - 1], run[j]);
      StepInv(run[j - 1], run[j]);
      LaterTransitive(run[i], run[j - 1], run[j]);
    }
  }

  /** canBeCancelled, once false, stays false. */
  lemma DeadStaysDead(run: seq<Graph>, i: nat, j: nat, id: Id)
    requires IsRun(run) && i <= j < |run| && id in run[i] && !CanBeCancelled(run[i][id])
    ensures id in run[j] && !CanBeCancelled(run[j][id])
  {
    RunLater(run, i, j);
    assert LaterNode(run[i][id], run[j][id]);
  }

  // ---------------------------------------------------------------- what a merged token means

  /** No request is in progress: every callback taken over has been run. */
  ghost predicate Quiet(g: Graph) {
    forall i :: i in g ==> g[i].todo == {}
  }

  /** In a quiet graph a merged state, once built, is cancelled exactly if one of its inputs is. */
  lemma MergedIffSomeInput(run: seq<Graph>, i: nat, m: Id)
    requires IsRun(run) && i < |run| && Quiet(run[i]) && m in run[i] && run[i][m].merging && Finished(run[i][m])
    ensures run[i][m].cancelled <==> exists k :: k in run[i][m].inputs && k in run[i] && run[i][k].cancelled
  {
    RunInv(run, i);
    var g := run[i];
    assert NodeOK(g, m);
    if k :| k in g[m].inputs && k in g && g[k].cancelled {
      var x :| 0 <= x < |g[m].inputs| && g[m].inputs[x] == k;
      assert Informs(g, g[m].inputs[x], m);
      assert g[k].todo == {};
    }
  }

  /** At every moment, even inside a request or a merge: a merged state is never cancelled before one of its inputs,
      and an input that is cancelled has told the merged state or still has it on its list. */
  lemma NeverEarlyNeverLost(run: seq<Graph>, i: nat, m: Id, x: nat)
    requires IsRun(run) && i < |run| && m in run[i] && run[i][m].merging
    ensures run[i][m].cancelled ==> exists k :: k in run[i][m].inputs && k in run[i] && run[i][k].cancelled
    ensures var n := run[i][m];
      x < n.done && x < |n.inputs| && n.inputs[x] in run[i] && run[i][n.inputs[x]].cancelled ==>
        n.cancelled || m in run[i][n.inputs[x]].todo
  {
    RunInv(run, i);
    var g := run[i];
    assert NodeOK(g, m);
    if x < g[m].done { assert Informs(g, g[m].inputs[x], m); }
  }

  /** How cancellation_token_merge begins: nothing to do for no or one input, otherwise a merged state. */
  ghost predicate Begins(g: Graph, args: seq<Arg>, id: Id, g': Graph, r: Option<Id>) {
    var inputs := Inputs(args);
    if |inputs| == 0 then g' == g && r == None
    else if |inputs| == 1 then g' == g && r == Some(inputs[0])
    else Allocate(g, args, id, g') && r == Some(id)
  }

  /** It returns r: a merged state has been through all its inputs. */
  ghost predicate Returned(g: Graph, r: Option<Id>) {
    r.Some? && r.value in g ==> Finished(g[r.value])
  }

  /** From the return of the merge on, whenever no request is in progress, the token is cancelled exactly if one of
      the arguments is: empties, adjacent duplicates and dead inputs make no difference, nor does anything that
      happens to the inputs while they are being registered. */
  lemma MergeMeansAny(run: seq<Graph>, i: nat, j: nat, args: seq<Arg>, id: Id, g': Graph, r: Option<Id>)
    requires IsRun(run) && i < |run| && Begins(run[i], args, id, g', r)
    requires if g' == run[i] then i <= j < |run| else i + 1 <= j < |run| && run[i + 1] == g'
    requires Returned(run[j], r) && Quiet(run[j])
    ensures Cancelled(run[j], r) <==> exists k :: 0 <= k < |args| && Cancelled(run[j], args[k].token)
  {
    var g, inputs := run[j], Inputs(args);
    forall x: Id ensures x in inputs <==> exists k :: 0 <= k < |args| && args[k].token == Some(x) {
        InputsAreArgs(args, x); }
    if |inputs| == 1 {
      assert inputs == [inputs[0]];
    } else if |inputs| >= 2 {
      MergedInputs(run, i, j, args, id, g');
      MergedIffSomeInput(run, j, id);
    }
    if k :| 0 <= k < |args| && Cancelled(g, args[k].token) {
      assert args[k].token.value in inputs;
    }
    if Cancelled(g, r) {
      var x :| x in inputs && x in g && g[x].cancelled;
      var k :| 0 <= k < |args| && args[k].token == Some(x);
      assert Cancelled(g, args[k].token);
    }
  }

  lemma MergedInputs(run: seq<Graph>, i: nat, j: nat, args: seq<Arg>, id: Id, g': Graph)
    requires IsRun(run) && i + 1 <= j < |run| && Allocate(run[i], args, id, g') && run[i + 1] == g'
    ensures id in run[j] && run[j][id].merging && run[j][id].inputs == Inputs(args)
  {
    RunLater(run, i + 1, j);
    assert LaterNode(run[i + 1][id], run[j][id]);
  }
}
