/**
 * The network of src/network.c: a chain of layers, the optimizer bound to their
 * parameters, and the passes that run the chain forward, backward and through an
 * update.
 *
 * The C record links the layers through `next` pointers from `input_layer` to
 * `output_layer`; here the chain is the sequence `layers`, so layers[0] is the
 * input layer, the last entry the output layer, and layers[i + 1] the `next` of
 * layers[i].  No two layers share an array, and no layer holds one of the
 * optimizer's moment buffers; that is how the model knows that a pass over one
 * layer leaves every other layer, and the optimizer, alone.
 */
module Networks {
  import opened Numeric
  import opened Grids
  import opened Matrices
  import opened Activations
  import opened Optimizers
  import opened Layers

  // ---- The forward chain as values ----

  /** The column count after the first k stages, starting from `cols`. */
  function ColsTo(sts: seq<Stage>, cols: nat, k: nat): nat
    requires k <= |sts|
  {
    if k == 0 then cols else StageCols(sts[k - 1], ColsTo(sts, cols, k - 1))
  }

  /** Every stage can take what the stages before it hand on, with its own draws. */
  predicate ChainFits(sts: seq<Stage>, rows: nat, cols: nat, draws: seq<seq<real>>)
  {
    |draws| == |sts| && forall k :: 0 <= k < |sts| ==> StageFits(sts[k], rows, ColsTo(sts, cols, k), draws[k])
  }

  /**
   * network_forward's threading over the first k stages: the first stage takes x and
   * every later stage the output of the one before it.
   */
  ghost function Run(sts: seq<Stage>, x: Grid, rows: nat, cols: nat, draws: seq<seq<real>>, lm: Libm, k: nat): (y: Grid)
    requires Lawful(lm) && IsShape(x, rows, cols) && ChainFits(sts, rows, cols, draws) && k <= |sts|
    ensures IsShape(y, rows, ColsTo(sts, cols, k))
  {
    if k == 0 then x
    else StageOutput(sts[k - 1], Run(sts, x, rows, cols, draws, lm, k - 1), rows, ColsTo(sts, cols, k - 1), draws[k - 1], lm)
  }

  /**
   * The cross-entropy of the chain's output for x against target t, averaged over the
   * rows: what network_train and network_test report.
   */
  ghost function ChainLoss(sts: seq<Stage>, x: Grid, t: Grid, rows: nat, cols: nat, draws: seq<seq<real>>, lm: Libm): real
    requires Lawful(lm) && rows > 0 && IsShape(x, rows, cols) && ChainFits(sts, rows, cols, draws)
    requires IsShape(t, rows, ColsTo(sts, cols, |sts|))
  {
    SumAll(CrossEntropyTerms(Run(sts, x, rows, cols, draws, lm, |sts|), t, lm)) / (rows as real)
  }

  /**
   * The chain's output for x minus target t, element by element: the seed
   * network_backward hands to the last layer.
   */
  ghost function ChainResidual(sts: seq<Stage>, x: Grid, t: Grid, rows: nat, cols: nat, draws: seq<seq<real>>, lm: Libm): (r: Grid)
    requires Lawful(lm) && IsShape(x, rows, cols) && ChainFits(sts, rows, cols, draws)
    requires IsShape(t, rows, ColsTo(sts, cols, |sts|))
    ensures IsShape(r, rows, ColsTo(sts, cols, |sts|))
  {
    ZipGrid(Run(sts, x, rows, cols, draws, lm, |sts|), t, Minus)
  }

  /** The values dense stage k computes before its activation, for what reaches it from x. */
  ghost function ChainPre(sts: seq<Stage>, x: Grid, rows: nat, cols: nat, draws: seq<seq<real>>, lm: Libm, k: nat): (z: Grid)
    requires Lawful(lm) && IsShape(x, rows, cols) && ChainFits(sts, rows, cols, draws) && k < |sts| && sts[k].kind == Dense
    ensures IsShape(z, rows, sts[k].outputSize)
  {
    Affine(Run(sts, x, rows, cols, draws, lm, k), sts[k].w, sts[k].b[0], rows, sts[k].inputSize, sts[k].outputSize)
  }

  /**
   * Memo m is what the forward pass of the stages sts on x leaves layer k for its
   * backward pass: a copy of what reached it and, for a dense stage with an
   * activation, its values before the activation.
   */
  ghost predicate MemoFrom(m: Memo, sts: seq<Stage>, x: Grid, rows: nat, cols: nat, draws: seq<seq<real>>, lm: Libm, k: nat)
    requires Lawful(lm) && IsShape(x, rows, cols) && ChainFits(sts, rows, cols, draws) && k < |sts|
  {
    && m.hasInput && m.input == Run(sts, x, rows, cols, draws, lm, k)
    && (sts[k].kind == Dense && sts[k].activation != 0 ==> m.hasPre && m.pre == ChainPre(sts, x, rows, cols, draws, lm, k))
  }

  /** Each of the first n layers holds what the forward pass of the stages sts on x left it. */
  ghost predicate MemosUntil(ms: seq<Memo>, n: nat, sts: seq<Stage>, x: Grid, rows: nat, cols: nat, draws: seq<seq<real>>, lm: Libm)
    requires Lawful(lm) && IsShape(x, rows, cols) && ChainFits(sts, rows, cols, draws)
  {
    && n <= |ms| == |sts|
    && forall k {:trigger MemoFrom(ms[k], sts, x, rows, cols, draws, lm, k)} :: 0 <= k < n ==> MemoFrom(ms[k], sts, x, rows, cols, draws, lm, k)
  }

  /** Every layer holds what the forward pass of the stages sts on x left it. */
  ghost predicate MemosFrom(ms: seq<Memo>, sts: seq<Stage>, x: Grid, rows: nat, cols: nat, draws: seq<seq<real>>, lm: Libm)
    requires Lawful(lm) && IsShape(x, rows, cols) && ChainFits(sts, rows, cols, draws)
  {
    MemosUntil(ms, |sts|, sts, x, rows, cols, draws, lm)
  }

  /**
   * The weight gradient dense_backward leaves at dense stage k after a forward pass
   * on x, for the gradient og handed to that stage: the transposed input reaching
   * the stage times og passed back through the activation at the stage's values
   * before the activation.
   */
  ghost function ChainWeightGradient(sts: seq<Stage>, x: Grid, rows: nat, cols: nat, draws: seq<seq<real>>, lm: Libm,
                                     k: nat, og: Grid): (g: Grid)
    requires Lawful(lm) && IsShape(x, rows, cols) && ChainFits(sts, rows, cols, draws) && k < |sts| && sts[k].kind == Dense
    requires IsShape(og, rows, sts[k].outputSize)
    ensures IsShape(g, sts[k].inputSize, sts[k].outputSize)
  {
    Product(Transposed(Run(sts, x, rows, cols, draws, lm, k), rows, sts[k].inputSize),
            ActivationGradient(sts[k].activation, og, ChainPre(sts, x, rows, cols, draws, lm, k), lm),
            sts[k].inputSize, rows, sts[k].outputSize)
  }

  /** The bias gradient dense_backward leaves there: the column sums of og passed back through the activation. */
  ghost function ChainBiasGradient(sts: seq<Stage>, x: Grid, rows: nat, cols: nat, draws: seq<seq<real>>, lm: Libm,
                                   k: nat, og: Grid): (g: Grid)
    requires Lawful(lm) && IsShape(x, rows, cols) && ChainFits(sts, rows, cols, draws) && k < |sts| && sts[k].kind == Dense
    requires IsShape(og, rows, sts[k].outputSize)
    ensures IsShape(g, 1, sts[k].outputSize)
  {
    [ColumnSums(ActivationGradient(sts[k].activation, og, ChainPre(sts, x, rows, cols, draws, lm, k), lm), rows, sts[k].outputSize)]
  }

  /** One more stage of Run takes the output of the ones before it. */
  lemma RunNext(sts: seq<Stage>, x: Grid, rows: nat, cols: nat, draws: seq<seq<real>>, lm: Libm, k: nat)
    requires Lawful(lm) && IsShape(x, rows, cols) && ChainFits(sts, rows, cols, draws) && k < |sts|
    ensures Run(sts, x, rows, cols, draws, lm, k + 1)
         == StageOutput(sts[k], Run(sts, x, rows, cols, draws, lm, k), rows, ColsTo(sts, cols, k), draws[k], lm)
  {
  }

  /** A stage that hands its argument on unchanged: dropout outside training or with rate 0. */
  predicate PassesThrough(st: Stage)
  {
    st.kind == Dropout && !(st.training && st.rate > 0.0)
  }

  /** A chain of pass-through stages returns its argument: dropout does nothing at inference. */
  lemma {:induction false} RunPassThrough(sts: seq<Stage>, x: Grid, rows: nat, cols: nat, draws: seq<seq<real>>, lm: Libm, k: nat)
    requires Lawful(lm) && IsShape(x, rows, cols) && ChainFits(sts, rows, cols, draws) && k <= |sts|
    requires forall j :: 0 <= j < |sts| ==> PassesThrough(sts[j])
    ensures ColsTo(sts, cols, k) == cols
    ensures Run(sts, x, rows, cols, draws, lm, k) == x
  {
    if k > 0 {
      RunPassThrough(sts, x, rows, cols, draws, lm, k - 1);
      assert PassesThrough(sts[k - 1]);
    }
  }

  // ---- The backward chain as values ----

  /**
   * matrix_create(r, c) followed by matrix_copy(new, g): g itself when it has the
   * shape r × c, and the zero matrix otherwise (the copy writes nothing then).
   */
  function Handed(g: Grid, r: nat, c: nat): (h: Grid)
    ensures IsShape(h, r, c)
    ensures IsShape(g, r, c) ==> h == g
  {
    if IsShape(g, r, c) then g else Zeros(r, c)
  }

  /**
   * matrix_create(r, c) followed by matrix_copy from g, as network_backward builds
   * each layer's gradient: a fresh r × c matrix that holds g when g has that shape
   * and stays zero otherwise, since the copy then writes nothing.
   */
  method HandOn(g: Matrix, r: nat, c: nat) returns (next: Matrix)
    requires g.Valid()
    ensures fresh(next.data) && Owned(next) && next.rows == r && next.cols == c
    ensures next.Elems() == Handed(g.Elems(), r, c)
  {
    next := new Matrix(r, c);
    OwnedLayout(next);
    ghost var d0 := next.data[..];
    Copy(next, g);
    if !(r == g.rows && c == g.cols) {
      OwnedLayout(next);
      if r > 0 {
        assert |g.Elems()| != r || |g.Elems()[0]| != c;
      }
    }
  }

  /**
   * The gradient network_backward hands layer k of a chain whose layer outputs have
   * the given shapes and whose output layer's output ends as seed: each layer gets
   * a fresh matrix of its own output's shape holding a copy of what the layer after
   * it got, the output layer a copy of seed itself.  Incoming(seed, shapes, |shapes|)
   * is seed.
   */
  function Incoming(seed: Grid, shapes: seq<(nat, nat)>, k: nat): (g: Grid)
    requires k <= |shapes| && 0 < |shapes| && IsShape(seed, shapes[|shapes| - 1].0, shapes[|shapes| - 1].1)
    ensures k < |shapes| ==> IsShape(g, shapes[k].0, shapes[k].1)
    decreases |shapes| - k
  {
    if k == |shapes| then seed
    else Handed(Incoming(seed, shapes, k + 1), shapes[k].0, shapes[k].1)
  }

  /** When every layer output has the seed's shape, every layer receives the seed itself. */
  lemma {:induction false} IncomingIsSeed(seed: Grid, shapes: seq<(nat, nat)>, k: nat)
    requires k < |shapes| && IsShape(seed, shapes[|shapes| - 1].0, shapes[|shapes| - 1].1)
    requires forall j :: k <= j < |shapes| ==> shapes[j] == shapes[|shapes| - 1]
    ensures Incoming(seed, shapes, k) == seed
    decreases |shapes| - k
  {
    if k < |shapes| - 1 {
      IncomingIsSeed(seed, shapes, k + 1);
    }
  }

  /** A hidden layer whose output shape differs from the next one's (and has rows) receives zeros. */
  lemma IncomingMismatch(seed: Grid, shapes: seq<(nat, nat)>, k: nat)
    requires k + 1 < |shapes| && IsShape(seed, shapes[|shapes| - 1].0, shapes[|shapes| - 1].1)
    requires shapes[k].0 > 0 && shapes[k] != shapes[k + 1]
    ensures Incoming(seed, shapes, k) == Zeros(shapes[k].0, shapes[k].1)
  {
    var g := Incoming(seed, shapes, k + 1);
    if shapes[k + 1].0 > 0 {
      assert |g[0]| == shapes[k + 1].1;
    }
  }

  // ---- Parameters in chain order ----

  /** The matrix, if there is one, as a sequence. */
  function Present(m: Matrix?): seq<Matrix>
  {
    if m == null then [] else [m]
  }

  /** Each parameter a layer has comes with its gradient. */
  predicate Paired(l: Layer)
  {
    (l.weights != null ==> l.gradWeights != null) && (l.biases != null ==> l.gradBiases != null)
  }

  /** Every layer of the chain is Paired. */
  predicate AllPairedIn(ls: seq<Layer>)
  {
    forall l | l in ls :: Paired(l)
  }

  /** What network_compile's fill loop binds, layer by layer: the weights, then the biases. */
  function ParamsOf(ls: seq<Layer>): (ps: seq<Matrix>)
  {
    if |ls| == 0 then []
    else ParamsOf(ls[..|ls| - 1]) + Present(ls[|ls| - 1].weights) + Present(ls[|ls| - 1].biases)
  }

  /** The gradient partners, in the same order: grad_weights with weights, grad_biases with biases. */
  function GradsOf(ls: seq<Layer>): (gs: seq<Matrix>)
    requires AllPairedIn(ls)
    ensures |gs| == |ParamsOf(ls)|
  {
    if |ls| == 0 then []
    else
      var l := ls[|ls| - 1];
      assert l in ls;
      GradsOf(ls[..|ls| - 1])
      + (if l.weights != null then Present(l.gradWeights) else [])
      + (if l.biases != null then Present(l.gradBiases) else [])
  }

  /** The number of non-null weights plus non-null biases: network_compile's counting loop. */
  function ParamCount(ls: seq<Layer>): nat
  {
    if |ls| == 0 then 0
    else ParamCount(ls[..|ls| - 1]) + (if ls[|ls| - 1].weights != null then 1 else 0) + (if ls[|ls| - 1].biases != null then 1 else 0)
  }

  /** The counting loop and the fill loop agree: as many parameters are bound as were counted. */
  lemma {:induction false} ParamCountIsBound(ls: seq<Layer>)
    ensures ParamCount(ls) == |ParamsOf(ls)|
    decreases |ls|
  {
    if |ls| > 0 {
      ParamCountIsBound(ls[..|ls| - 1]);
    }
  }

  /**
   * In a chain of layers that all have weights and biases, layer i's weights are
   * parameter 2i and its biases parameter 2i + 1, each with its own gradient beside it.
   */
  lemma {:induction false} ParamsOfFull(ls: seq<Layer>)
    requires AllPairedIn(ls) && forall k :: 0 <= k < |ls| ==> ls[k].weights != null && ls[k].biases != null
    ensures Interleaved(ParamsOf(ls), GradsOf(ls), ls)
    decreases |ls|
  {
    if |ls| > 0 {
      var n := |ls| - 1;
      ParamsOfFull(ls[..n]);
      DenseLists(ls);
      InterleavedAppend(ParamsOf(ls[..n]), GradsOf(ls[..n]), ls);
    }
  }

  /**
   * ps and gs list, layer by layer, each layer's weights then its biases, and their
   * gradients in the same places.
   */
  predicate Interleaved(ps: seq<Matrix>, gs: seq<Matrix>, ls: seq<Layer>)
  {
    && |ps| == |gs| == 2 * |ls|
    && forall i :: 0 <= i < |ls| ==>
         && ps[2 * i] == ls[i].weights && ps[2 * i + 1] == ls[i].biases
         && gs[2 * i] == ls[i].gradWeights && gs[2 * i + 1] == ls[i].gradBiases
  }

  /** Appending the last layer's two parameters and gradients extends the interleaving to it. */
  lemma InterleavedAppend(ps: seq<Matrix>, gs: seq<Matrix>, ls: seq<Layer>)
    requires |ls| > 0 && Interleaved(ps, gs, ls[..|ls| - 1])
    requires ls[|ls| - 1].weights != null && ls[|ls| - 1].biases != null
    requires ls[|ls| - 1].gradWeights != null && ls[|ls| - 1].gradBiases != null
    ensures Interleaved(ps + [ls[|ls| - 1].weights] + [ls[|ls| - 1].biases],
                        gs + [ls[|ls| - 1].gradWeights] + [ls[|ls| - 1].gradBiases], ls)
  {
    var n := |ls| - 1;
    var ps', gs' := ps + [ls[n].weights] + [ls[n].biases], gs + [ls[n].gradWeights] + [ls[n].gradBiases];
    forall i | 0 <= i < |ls|
      ensures && ps'[2 * i] == ls[i].weights && ps'[2 * i + 1] == ls[i].biases
              && gs'[2 * i] == ls[i].gradWeights && gs'[2 * i + 1] == ls[i].gradBiases
    {
      if i < n {
        assert ls[..n][i] == ls[i];
      }
    }
  }


  /**
   * Parameter k of the chain ls is the weights (when w) or the biases of layer j,
   * and gradient k is their gradient.
   */
  lemma {:induction false} ParamAt(ls: seq<Layer>, k: nat) returns (j: nat, w: bool)
    requires AllPairedIn(ls) && k < |ParamsOf(ls)|
    ensures j < |ls|
    ensures w ==> ls[j].weights != null && ParamsOf(ls)[k] == ls[j].weights && GradsOf(ls)[k] == ls[j].gradWeights
    ensures !w ==> ls[j].biases != null && ParamsOf(ls)[k] == ls[j].biases && GradsOf(ls)[k] == ls[j].gradBiases
    decreases |ls|
  {
    var n := |ls| - 1;
    var l := ls[n];
    assert l in ls;
    assert AllPairedIn(ls[..n]) by {
      forall x | x in ls[..n] ensures Paired(x) {
        assert x in ls;
      }
    }
    var front := ParamsOf(ls[..n]);
    if k < |front| {
      j, w := ParamAt(ls[..n], k);
      assert ls[..n][j] == ls[j];
    } else if l.weights != null && k == |front| {
      j, w := n, true;
    } else {
      j, w := n, false;
    }
  }

  /** Extending the prefix by layer k appends that layer's weights then its biases to the parameter list. */
  lemma ParamsOfStep(ls: seq<Layer>, k: nat)
    requires k < |ls|
    ensures ParamsOf(ls[..k + 1]) == ParamsOf(ls[..k]) + Present(ls[k].weights) + Present(ls[k].biases)
    ensures ParamCount(ls[..k + 1]) == ParamCount(ls[..k]) + (if ls[k].weights != null then 1 else 0) + (if ls[k].biases != null then 1 else 0)
  {
    assert ls[..k + 1][..k] == ls[..k];
  }

  /** Extending the prefix by layer k appends the gradients of the parameters layer k has. */
  lemma GradsOfStep(ls: seq<Layer>, k: nat)
    requires k < |ls| && AllPairedIn(ls)
    ensures AllPairedIn(ls[..k]) && AllPairedIn(ls[..k + 1])
    ensures GradsOf(ls[..k + 1]) == GradsOf(ls[..k])
      + (if ls[k].weights != null then Present(ls[k].gradWeights) else [])
      + (if ls[k].biases != null then Present(ls[k].gradBiases) else [])
  {
    assert ls[..k + 1][..k] == ls[..k];
  }

  /** The arrays held by the layers of ls. */
  ghost function HeldBy(ls: seq<Layer>): set<array<real>>
    reads ls
  {
    set i, a | 0 <= i < |ls| && a in ls[i].Arrays() :: a
  }

  /** The cache arrays of the layers of ls. */
  ghost function CachesOf(ls: seq<Layer>): set<array<real>>
    reads ls
  {
    set i, a | 0 <= i < |ls| && a in ls[i].Caches() :: a
  }

  /** The cache arrays of layer j of ls are among those of ls. */
  lemma CachesHas(ls: seq<Layer>, j: nat)
    requires j < |ls|
    ensures ls[j].Caches() <= CachesOf(ls)
  {
  }

  /** The arrays of the eight matrix slots of l, those that are there. */
  ghost function SlotsOf(l: Layer): seq<array<real>>
    reads l
  {
    SeqOf(l.weights) + SeqOf(l.biases) + SeqOf(l.gradWeights) + SeqOf(l.gradBiases)
    + SeqOf(l.input) + SeqOf(l.output) + SeqOf(l.gradInput) + SeqOf(l.mask)
  }

  /** The slots of l list exactly the arrays l holds. */
  lemma SlotsAre(l: Layer)
    ensures forall a :: a in SlotsOf(l) <==> a in l.Arrays()
  {
  }

  /** A layer whose arrays are old ones of H or fresh lists only such arrays. */
  twostate lemma SlotsNew(new l: Layer, new A: set<array<real>>, new H: set<array<real>>)
    requires forall a :: a in l.Arrays() ==> a in A || fresh(a)
    requires A <= H
    ensures forall i :: 0 <= i < |SlotsOf(l)| ==> SlotsOf(l)[i] in H || fresh(SlotsOf(l)[i])
  {
    SlotsAre(l);
  }

  /**
   * Once layer k alone changed, gaining no array but fresh ones, what layer k holds
   * extends the arrays that cover the layers before it; each is old in H or fresh.
   */
  twostate lemma CoveredStep(new ls: seq<Layer>, new k: nat, new held: seq<array<real>>, new H: set<array<real>>)
    requires old(allocated(ls)) && old(allocated(held)) && old(allocated(H))
    requires k < |ls| && old(Covered(ls, k, held)) && old(ls[k].Arrays() <= H)
    requires forall j :: 0 <= j < |ls| && j != k ==> unchanged(ls[j])
    requires forall a :: a in ls[k].Arrays() ==> a in old(ls[k].Arrays()) || fresh(a)
    ensures Covered(ls, k + 1, held + SlotsOf(ls[k]))
    ensures forall i :: 0 <= i < |SlotsOf(ls[k])| ==> SlotsOf(ls[k])[i] in H || fresh(SlotsOf(ls[k])[i])
  {
    CoveredKept(ls, k, held);
    CoveredGrows(ls, k, held, SlotsOf(ls[k]));
    SlotsNew(ls[k], old(ls[k].Arrays()), H);
  }

  /** Every array of the first k layers of ls occurs in held. */
  ghost predicate Covered(ls: seq<Layer>, k: nat, held: seq<array<real>>)
    reads ls
    requires k <= |ls|
  {
    k == 0 || (Covered(ls, k - 1, held) && Listed(ls[k - 1], held))
  }

  /** Every array l holds occurs in held. */
  ghost predicate Listed(l: Layer, held: seq<array<real>>)
    reads l
  {
    forall i :: 0 <= i < |SlotsOf(l)| ==> SlotsOf(l)[i] in held
  }

  /** Each array of s is in H or was allocated after the old state. */
  twostate predicate NewOrIn(new s: seq<array<real>>, new H: set<array<real>>)
    decreases |s|
  {
    |s| == 0 || (NewOrIn(s[..|s| - 1], H) && (s[|s| - 1] in H || fresh(s[|s| - 1])))
  }

  /** NewOrIn, element by element. */
  twostate lemma {:induction false} NewOrInEach(new s: seq<array<real>>, new H: set<array<real>>)
    requires NewOrIn(s, H)
    ensures forall i :: 0 <= i < |s| ==> s[i] in H || fresh(s[i])
    decreases |s|
  {
    if |s| > 0 {
      NewOrInEach(s[..|s| - 1], H);
    }
  }

  /** NewOrIn extends by arrays that are in H or were allocated after the old state. */
  twostate lemma {:induction false} NewOrInAppend(new s: seq<array<real>>, new t: seq<array<real>>, new H: set<array<real>>)
    requires NewOrIn(s, H)
    requires forall i :: 0 <= i < |t| ==> t[i] in H || fresh(t[i])
    ensures NewOrIn(s + t, H)
    decreases |t|
  {
    if |t| == 0 {
      assert s + t == s;
    } else {
      NewOrInAppend(s, t[..|t| - 1], H);
      assert (s + t)[..|s + t| - 1] == s + t[..|t| - 1];
      assert (s + t)[|s + t| - 1] == t[|t| - 1];
    }
  }

  /**
   * When held lists every array of the layers of ls and each entry of held is in H
   * or new, so is every array the layers hold.
   */
  twostate lemma HeldNewOrIn(new ls: seq<Layer>, new held: seq<array<real>>, new H: set<array<real>>)
    requires Covered(ls, |ls|, held) && NewOrIn(held, H)
    ensures forall j, a :: 0 <= j < |ls| && a in ls[j].Arrays() ==> a in H || fresh(a)
  {
    CoveredEach(ls, |ls|, held);
    NewOrInEach(held, H);
    forall j, a | 0 <= j < |ls| && a in ls[j].Arrays() ensures a in H || fresh(a) {
      assert a in held;
      var i :| 0 <= i < |held| && held[i] == a;
    }
  }

  /** Covered, layer by layer. */
  lemma {:induction false} CoveredEach(ls: seq<Layer>, k: nat, held: seq<array<real>>)
    requires k <= |ls| && Covered(ls, k, held)
    ensures forall j, a :: 0 <= j < k && a in ls[j].Arrays() ==> a in held
  {
    if k > 0 {
      CoveredEach(ls, k - 1, held);
      ListedHas(ls[k - 1], held);
    }
  }

  /** A layer listed in held has every one of its arrays in held. */
  lemma ListedHas(l: Layer, held: seq<array<real>>)
    requires Listed(l, held)
    ensures forall a :: a in l.Arrays() ==> a in held
  {
    SlotsAre(l);
  }

  /** Covered holds of a longer sequence as well. */
  lemma {:induction false} CoveredGrows(ls: seq<Layer>, k: nat, held: seq<array<real>>, more: seq<array<real>>)
    requires k <= |ls| && Covered(ls, k, held)
    ensures Covered(ls, k, held + more)
  {
    if k > 0 {
      CoveredGrows(ls, k - 1, held, more);
    }
  }

  /** Covered depends only on the first k layers. */
  twostate lemma {:induction false} CoveredKept(ls: seq<Layer>, new k: nat, new held: seq<array<real>>)
    requires k <= |ls| && old(allocated(held)) && old(Covered(ls, k, held))
    requires forall j :: 0 <= j < k ==> unchanged(ls[j])
    ensures Covered(ls, k, held)
  {
    if k > 0 {
      CoveredKept(ls, k - 1, held);
    }
  }

  /** The arrays network_free releases through the layers of ls, layer by layer. */
  ghost function FreedBy(ls: seq<Layer>): seq<array<real>>
    reads ls
  {
    if |ls| == 0 then [] else FreedBy(ls[..|ls| - 1]) + ls[|ls| - 1].FreeOrder()
  }

  /**
   * Freeing the layers of a fine chain releases every array they hold, and none
   * twice.
   */
  lemma {:induction false} FreedOnce(ls: seq<Layer>)
    requires LayersFine(ls)
    ensures Distinct(FreedBy(ls))
    ensures forall a :: a in FreedBy(ls) <==> a in HeldBy(ls)
  {
    if |ls| > 0 {
      var front, l := ls[..|ls| - 1], ls[|ls| - 1];
      FineParts(ls);
      FreedOnce(front);
      assert l.Valid();
      l.FreeReleasesAll();
      l.FreeOrderDistinct();
      HeldSplit(ls);
      HeldApart(front, l.Arrays());
      JoinFreed(FreedBy(front), l.FreeOrder(), HeldBy(front), l.Arrays());
    }
  }

  /** Releasing s and then t, each exactly A and B, A and B apart, releases A + B exactly once. */
  lemma JoinFreed(s: seq<array<real>>, t: seq<array<real>>, A: set<array<real>>, B: set<array<real>>)
    requires Distinct(s) && Distinct(t) && A !! B
    requires forall a :: a in s <==> a in A
    requires forall a :: a in t <==> a in B
    ensures Distinct(s + t)
    ensures forall a :: a in s + t <==> a in A + B
  {
    DistinctAppend(s, t);
  }

  /** What a chain holds is what its front holds and what its last layer holds. */
  lemma HeldSplit(ls: seq<Layer>)
    requires |ls| > 0
    ensures HeldBy(ls) == HeldBy(ls[..|ls| - 1]) + ls[|ls| - 1].Arrays()
  {
    var front := ls[..|ls| - 1];
    forall a | a in HeldBy(ls) ensures a in HeldBy(front) + ls[|ls| - 1].Arrays() {
      var i :| 0 <= i < |ls| && a in ls[i].Arrays();
      if i < |ls| - 1 {
        assert front[i] == ls[i];
      }
    }
    forall a | a in HeldBy(front) ensures a in HeldBy(ls) {
      var i :| 0 <= i < |front| && a in front[i].Arrays();
      assert ls[i] == front[i];
    }
  }

  /** Arrays apart from each layer's are apart from what the chain holds. */
  lemma HeldApart(ls: seq<Layer>, xs: set<array<real>>)
    requires forall i :: 0 <= i < |ls| ==> ls[i].Arrays() !! xs
    ensures HeldBy(ls) !! xs
  {
    forall a | a in HeldBy(ls) ensures a !in xs {
      var i :| 0 <= i < |ls| && a in ls[i].Arrays();
    }
  }

  /** Two sequences without repeats and without a common element join without repeats. */
  lemma DistinctAppend(s: seq<array<real>>, t: seq<array<real>>)
    requires Distinct(s) && Distinct(t) && forall a :: a in s ==> a !in t
    ensures Distinct(s + t)
  {
    var st := s + t;
    forall i, j | 0 <= i < j < |st| ensures st[i] != st[j] {
      if j >= |s| && i < |s| {
        assert st[i] in s && st[j] == t[j - |s|];
      }
    }
  }

  /** Each layer's arrays are among those the chain holds. */
  lemma HeldHas(ls: seq<Layer>, j: nat)
    requires j < |ls|
    ensures ls[j].Arrays() <= HeldBy(ls)
  {
  }

  /** The output array of a layer of ls, when it has one, is among the arrays ls holds. */
  lemma OutputHeld(ls: seq<Layer>, j: nat)
    requires j < |ls| && ls[j].output != null
    ensures ls[j].output.data in HeldBy(ls)
  {
    assert ls[j].output.data in ls[j].Arrays();
  }

  /**
   * The bound lists ps and gs can be handed to the optimizer: no two of their
   * matrices share an array, each is owned, each gradient has its parameter's shape,
   * and every array belongs to held.
   */
  predicate BindableIn(ps: seq<Matrix>, gs: seq<Matrix>, held: set<array<real>>)
  {
    && Bindable(ps, gs)
    && (forall i :: 0 <= i < |ps| ==> ps[i].data in held && gs[i].data in held)
  }

  /** Layers that are each valid and pairwise share no array. */
  ghost predicate LayersFine(ls: seq<Layer>)
    reads ls
  {
    && (forall i :: 0 <= i < |ls| ==> ls[i].Valid())
    && (forall i, j {:trigger LayerApart(ls[i], ls[j])} :: 0 <= i < j < |ls| ==> LayerApart(ls[i], ls[j]))
  }

  /** Two different layers that share no array. */
  ghost predicate LayerApart(l: Layer, m: Layer)
    reads l, m
  {
    l != m && l.Arrays() !! m.Arrays()
  }

  /** The parameters and gradients of a chain of valid layers that share no array can all be bound. */
  lemma {:induction false} ParamsUnshared(ls: seq<Layer>)
    requires LayersFine(ls)
    ensures AllPairedIn(ls) && BindableIn(ParamsOf(ls), GradsOf(ls), HeldBy(ls))
    decreases |ls|
  {
    FineParts(ls);
    if |ls| > 0 {
      var n := |ls| - 1;
      ParamsUnshared(ls[..n]);
      if ls[n].kind == Dense {
        assert forall i :: 0 <= i < n ==> ls[..n][i] == ls[i];
        HeldApart(ls[..n], ls[n].Arrays());
        DenseBindable(ls);
      } else {
        DropoutBindable(ls);
      }
    }
  }

  /** What ParamsUnshared needs of fine layers: they are paired, a prefix is fine, and the last layer's parameters are shaped or absent. */
  lemma FineParts(ls: seq<Layer>)
    requires LayersFine(ls)
    ensures AllPairedIn(ls)
    ensures |ls| > 0 ==> LayersFine(ls[..|ls| - 1]) && AllPairedIn(ls[..|ls| - 1])
    ensures |ls| > 0 ==> forall i :: 0 <= i < |ls| - 1 ==> ls[i].Arrays() !! ls[|ls| - 1].Arrays()
    ensures |ls| > 0 && ls[|ls| - 1].kind == Dense ==> ls[|ls| - 1].ParamsShaped() && ls[|ls| - 1].Separate()
    ensures |ls| > 0 && ls[|ls| - 1].kind != Dense ==> ls[|ls| - 1].weights == null && ls[|ls| - 1].biases == null
  {
    forall l | l in ls ensures Paired(l) {
      assert l.Valid();
    }
    if |ls| > 0 {
      assert ls[|ls| - 1].Valid();
      assert LayersFine(ls[..|ls| - 1]);
      forall i | 0 <= i < |ls| - 1 ensures ls[i].Arrays() !! ls[|ls| - 1].Arrays() {
        assert LayerApart(ls[i], ls[|ls| - 1]);
      }
    }
  }

  /** A last layer with weights and biases adds both, with their gradients, to the bound lists. */
  lemma DenseLists(ls: seq<Layer>)
    requires |ls| > 0 && AllPairedIn(ls) && ls[|ls| - 1].weights != null && ls[|ls| - 1].biases != null
    requires AllPairedIn(ls[..|ls| - 1])
    ensures ParamsOf(ls) == ParamsOf(ls[..|ls| - 1]) + [ls[|ls| - 1].weights] + [ls[|ls| - 1].biases]
    ensures ls[|ls| - 1].gradWeights != null && ls[|ls| - 1].gradBiases != null
    ensures GradsOf(ls) == GradsOf(ls[..|ls| - 1]) + [ls[|ls| - 1].gradWeights] + [ls[|ls| - 1].gradBiases]
  {
    var l := ls[|ls| - 1];
    assert l in ls;
    assert Present(l.weights) == [l.weights] && Present(l.biases) == [l.biases];
    assert Present(l.gradWeights) == [l.gradWeights] && Present(l.gradBiases) == [l.gradBiases];
  }

  /** A last layer without parameters adds nothing to the bound lists. */
  lemma DropoutLists(ls: seq<Layer>)
    requires |ls| > 0 && AllPairedIn(ls) && ls[|ls| - 1].weights == null && ls[|ls| - 1].biases == null
    requires AllPairedIn(ls[..|ls| - 1])
    ensures ParamsOf(ls) == ParamsOf(ls[..|ls| - 1]) && GradsOf(ls) == GradsOf(ls[..|ls| - 1])
  {
  }

  /** The induction step of ParamsUnshared for a dense last layer. */
  lemma DenseBindable(ls: seq<Layer>)
    requires |ls| > 0 && AllPairedIn(ls) && ls[|ls| - 1].ParamsShaped() && ls[|ls| - 1].Separate()
    requires AllPairedIn(ls[..|ls| - 1]) && HeldBy(ls[..|ls| - 1]) !! ls[|ls| - 1].Arrays()
    requires BindableIn(ParamsOf(ls[..|ls| - 1]), GradsOf(ls[..|ls| - 1]), HeldBy(ls[..|ls| - 1]))
    ensures BindableIn(ParamsOf(ls), GradsOf(ls), HeldBy(ls))
  {
    var front, l := ls[..|ls| - 1], ls[|ls| - 1];
    DenseLists(ls);
    UnsharedAppend(ParamsOf(front), GradsOf(front), HeldBy(front), l);
  }

  /** The induction step of ParamsUnshared for a dropout last layer: nothing is added. */
  lemma DropoutBindable(ls: seq<Layer>)
    requires |ls| > 0 && AllPairedIn(ls) && ls[|ls| - 1].weights == null && ls[|ls| - 1].biases == null
    requires AllPairedIn(ls[..|ls| - 1])
    requires BindableIn(ParamsOf(ls[..|ls| - 1]), GradsOf(ls[..|ls| - 1]), HeldBy(ls[..|ls| - 1]))
    ensures BindableIn(ParamsOf(ls), GradsOf(ls), HeldBy(ls))
  {
    var front, l := ls[..|ls| - 1], ls[|ls| - 1];
    DropoutLists(ls);
    BindableMore(ParamsOf(front), GradsOf(front), HeldBy(front), l.Arrays());
  }

  /** Lists bindable within some arrays are bindable within more. */
  lemma BindableMore(ps: seq<Matrix>, gs: seq<Matrix>, held: set<array<real>>, more: set<array<real>>)
    requires BindableIn(ps, gs, held)
    ensures BindableIn(ps, gs, held + more)
  {
  }

  /** A dense layer's two parameters and two gradients, kept apart from what is held already, extend the lists. */
  lemma UnsharedAppend(ps: seq<Matrix>, gs: seq<Matrix>, held: set<array<real>>, l: Layer)
    requires BindableIn(ps, gs, held) && l.ParamsShaped() && l.Separate() && held !! l.Arrays()
    ensures BindableIn(ps + [l.weights] + [l.biases], gs + [l.gradWeights] + [l.gradBiases], held + l.Arrays())
  {
    var ps', gs' := ps + [l.weights] + [l.biases], gs + [l.gradWeights] + [l.gradBiases];
    var n := |ps|;
    assert l.weights.data in l.Arrays() && l.biases.data in l.Arrays();
    assert l.gradWeights.data in l.Arrays() && l.gradBiases.data in l.Arrays();
    forall i, j | 0 <= i < j < n + 2
      ensures && ps'[i].data != ps'[j].data && ps'[i].data != gs'[j].data
              && gs'[i].data != ps'[j].data && gs'[i].data != gs'[j].data
    {
      if j >= n && i < n {
        assert ps'[i].data in held && gs'[i].data in held;
        assert ps'[j].data in l.Arrays() && gs'[j].data in l.Arrays();
      }
    }
  }

  /** An array allocated after a layer was holds none of the layer's matrices. */
  twostate lemma FreshApart(l: Layer, new a: array<real>)
    requires old(allocated(l)) && unchanged(l) && fresh(a)
    ensures a !in l.Arrays()
  { }

  /** A layer whose fields did not change holds the same arrays. */
  twostate lemma ArraysKept(l: Layer)
    requires unchanged(l)
    ensures l.Arrays() == old(l.Arrays())
  { }

  /** No layer of ls holds the array of any of ms. */
  ghost predicate NoneHeld(ls: seq<Layer>, ms: seq<Matrix>)
    reads ls
  {
    forall i, k :: 0 <= i < |ls| && 0 <= k < |ms| ==> ms[k].data !in ls[i].Arrays()
  }

  /**
   * After a step that changed only layer k, left it valid and gave it no array but
   * the ones it had and new ones, the chain is as fine as before.
   */
  twostate lemma FineAfterStep(ls: seq<Layer>, new k: nat)
    requires old(LayersFine(ls)) && k < |ls|
    requires forall j :: 0 <= j < |ls| && j != k ==> unchanged(ls[j])
    requires ls[k].Valid()
    requires forall a :: a in ls[k].Arrays() ==> a in old(ls[k].Arrays()) || fresh(a)
    ensures LayersFine(ls)
  {
    forall j | 0 <= j < |ls| && j != k
      ensures ls[j].Valid() && ls[j].Arrays() == old(ls[j].Arrays())
    {
      assert old(ls[j].Valid());
    }
    forall i, j | 0 <= i < j < |ls|
      ensures LayerApart(ls[i], ls[j])
    {
      assert old(LayerApart(ls[i], ls[j]));
      if i == k || j == k {
        var o := if i == k then j else i;
        forall a | a in ls[k].Arrays() ensures a !in ls[o].Arrays() {
          if a !in old(ls[k].Arrays()) {
            FreshApart(ls[o], a);
          }
        }
      }
    }
  }

  /**
   * A step that changed layer k alone, wrote only arrays of its forward frame and kept
   * its stage, leaves every stage as it was.
   */
  twostate lemma SnapshotsAfterStep(ls: seq<Layer>, new k: nat)
    requires old(LayersFine(ls)) && k < |ls|
    requires forall j :: 0 <= j < |ls| && j != k ==> unchanged(ls[j])
    requires forall a: array<real> :: old(allocated(a)) && a !in old(ls[k].ForwardFrame()) ==> unchanged(a)
    requires ls[k].Valid() && ls[k].Snapshot() == old(ls[k].Snapshot())
    ensures forall j :: 0 <= j < |ls| ==> ls[j].Valid() && ls[j].Snapshot() == old(ls[j].Snapshot())
  {
    forall j | 0 <= j < |ls| && j != k
      ensures ls[j].Valid() && ls[j].Snapshot() == old(ls[j].Snapshot())
    {
      var l := ls[j];
      assert old(l.Valid());
      if j < k {
        assert old(LayerApart(l, ls[k]));
      } else {
        assert old(LayerApart(ls[k], l));
      }
      assert old(ls[k].ForwardFrame() <= ls[k].Arrays());
      if l.weights != null {
        assert old(allocated(l.weights.data)) && l.weights.data in old(l.Arrays());
      }
      if l.biases != null {
        assert old(allocated(l.biases.data)) && l.biases.data in old(l.Arrays());
      }
    }
  }

  /**
   * A backward step that changed layer k alone, wrote only arrays of its backward frame
   * and kept its stage, leaves every stage as it was.
   */
  twostate lemma SnapshotsAfterBack(ls: seq<Layer>, new k: nat)
    requires old(LayersFine(ls)) && k < |ls|
    requires forall j :: 0 <= j < |ls| && j != k ==> unchanged(ls[j])
    requires forall a: array<real> :: old(allocated(a)) && a !in old(ls[k].BackwardFrame()) ==> unchanged(a)
    requires ls[k].Valid() && ls[k].Snapshot() == old(ls[k].Snapshot())
    ensures forall j :: 0 <= j < |ls| ==> ls[j].Valid() && ls[j].Snapshot() == old(ls[j].Snapshot())
  {
    forall j | 0 <= j < |ls| && j != k
      ensures ls[j].Valid() && ls[j].Snapshot() == old(ls[j].Snapshot())
    {
      var l := ls[j];
      assert old(l.Valid());
      if j < k {
        assert old(LayerApart(l, ls[k]));
      } else {
        assert old(LayerApart(ls[k], l));
      }
      assert old(ls[k].BackwardFrame() <= ls[k].Arrays());
      if l.weights != null {
        assert old(allocated(l.weights.data)) && l.weights.data in old(l.Arrays());
      }
      if l.biases != null {
        assert old(allocated(l.biases.data)) && l.biases.data in old(l.Arrays());
      }
    }
  }

  /** Layers none of whose fields changed are as fine as they were. */
  twostate lemma FineKept(ls: seq<Layer>)
    requires forall i :: 0 <= i < |ls| ==> unchanged(ls[i])
    requires old(LayersFine(ls))
    ensures LayersFine(ls)
  {
    forall i | 0 <= i < |ls| ensures ls[i].Valid() && ls[i].Arrays() == old(ls[i].Arrays()) {
      assert old(ls[i].Valid());
    }
    forall i, j | 0 <= i < j < |ls| ensures LayerApart(ls[i], ls[j]) {
      assert old(LayerApart(ls[i], ls[j]));
    }
  }

  /** A valid layer that shares no array with a fine chain extends it. */
  lemma FineAppend(ls: seq<Layer>, l: Layer)
    requires LayersFine(ls) && l.Valid() && l !in ls
    requires forall i :: 0 <= i < |ls| ==> ls[i].Arrays() !! l.Arrays()
    ensures LayersFine(ls + [l])
  {
    var ls' := ls + [l];
    forall i, j | 0 <= i < j < |ls'| ensures LayerApart(ls'[i], ls'[j]) {
      if j == |ls| {
        assert ls'[i] == ls[i];
      } else {
        assert LayerApart(ls[i], ls[j]);
      }
    }
  }

  /** A layer that holds none of the arrays of ms keeps a chain that holds none of them so. */
  lemma NoneHeldAppend(ls: seq<Layer>, l: Layer, ms: seq<Matrix>)
    requires NoneHeld(ls, ms) && forall k :: 0 <= k < |ms| ==> ms[k].data !in l.Arrays()
    ensures NoneHeld(ls + [l], ms)
  {
    var ls' := ls + [l];
    forall i, k | 0 <= i < |ls'| && 0 <= k < |ms| ensures ms[k].data !in ls'[i].Arrays() {
      if i < |ls| {
        assert ls'[i] == ls[i];
      }
    }
  }


  /**
   * network_compile's fill loop: the optimizer is bound to every parameter of the
   * chain, in chain order, with its gradient and moment buffers that no layer holds.
   */
  method BindChain(opt: Optimizer, ls: seq<Layer>)
    requires LayersFine(ls)
    modifies opt`params, opt`grads, opt`m, opt`v, opt`paramCount, opt`owner
    ensures LayersFine(ls) && AllPairedIn(ls) && opt.Valid() && opt.MomentsNonNeg() && opt.MomentsZero()
    ensures opt.params == ParamsOf(ls) && opt.grads == GradsOf(ls) && opt.paramCount == ParamCount(ls)
    ensures NoneHeld(ls, opt.m) && NoneHeld(ls, opt.v)
  {
    ParamsUnshared(ls);
    ParamCountIsBound(ls);
    opt.BindAll(ParamsOf(ls), GradsOf(ls));
    forall i, k | 0 <= i < |ls| && 0 <= k < |opt.m| ensures opt.m[k].data !in ls[i].Arrays() && opt.v[k].data !in ls[i].Arrays() {
      FreshApart(ls[i], opt.m[k].data);
      FreshApart(ls[i], opt.v[k].data);
    }
    FineKept(ls);
  }


  /** Every other layer of a fine chain is a different layer, holding none of layer k's arrays. */
  lemma OthersApart(ls: seq<Layer>, k: nat)
    requires LayersFine(ls) && k < |ls|
    ensures forall j :: 0 <= j < |ls| && j != k ==> ls[j] != ls[k] && ls[j].Arrays() !! ls[k].Arrays()
  {
    forall j | 0 <= j < |ls| && j != k ensures ls[j] != ls[k] && ls[j].Arrays() !! ls[k].Arrays() {
      if j < k {
        assert LayerApart(ls[j], ls[k]);
      } else {
        assert LayerApart(ls[k], ls[j]);
      }
    }
  }

  /** A layer's output array belongs to no other layer of a fine chain. */
  lemma OutputApart(ls: seq<Layer>, i: nat, j: nat)
    requires LayersFine(ls) && i < |ls| && j < |ls| && i != j && ls[i].output != null
    ensures ls[i].output.data !in ls[j].Arrays()
  {
    assert ls[i].output.data in ls[i].Arrays();
    if i < j {
      assert LayerApart(ls[i], ls[j]);
    } else {
      assert LayerApart(ls[j], ls[i]);
    }
  }


  /** The parameter arrays of the layers of ls. */
  ghost function ParamArrays(ls: seq<Layer>): (ps: set<array<real>>)
    reads ls
    ensures forall i :: 0 <= i < |ls| ==> ls[i].Params() <= ps
  {
    if |ls| == 0 then {}
    else
      assert forall i :: 0 <= i < |ls| - 1 ==> ls[..|ls| - 1][i] == ls[i];
      ParamArrays(ls[..|ls| - 1]) + ls[|ls| - 1].Params()
  }

  /** What each layer of ls computes, as a value: its stage, in chain order. */
  ghost function StagesOf(ls: seq<Layer>): (sts: seq<Stage>)
    reads ls, ParamArrays(ls)
    requires forall i :: 0 <= i < |ls| ==> ls[i].Valid()
    ensures |sts| == |ls|
    ensures forall i :: 0 <= i < |ls| ==> sts[i] == ls[i].Snapshot()
  {
    if |ls| == 0 then []
    else
      SnapshotsSnoc(StagesOf(ls[..|ls| - 1]), ls);
      StagesOf(ls[..|ls| - 1]) + [ls[|ls| - 1].Snapshot()]
  }

  /** What every layer of ls keeps for its backward pass, in chain order. */
  ghost function MemosOf(ls: seq<Layer>): (ms: seq<Memo>)
    reads ls, CachesOf(ls)
    requires forall i :: 0 <= i < |ls| ==> ls[i].Valid()
    ensures |ms| == |ls| && forall i {:trigger ms[i]} :: 0 <= i < |ls| ==> ms[i] == ls[i].Remembered()
  {
    assert forall i :: 0 <= i < |ls| ==> ls[i].Caches() <= CachesOf(ls);
    seq(|ls|, (i: int) requires 0 <= i < |ls| && ls[i].Valid() reads ls, if 0 <= i < |ls| then ls[i].Caches() else {} =>
      ls[i].Remembered())
  }

  /** Layers that kept their objects and cache arrays keep what they remember. */
  twostate lemma MemosKept(ls: seq<Layer>)
    requires forall i :: 0 <= i < |ls| ==> old(ls[i].Valid()) && ls[i].Valid() && unchanged(ls[i])
    requires forall a :: a in old(CachesOf(ls)) ==> unchanged(a)
    ensures MemosOf(ls) == old(MemosOf(ls))
  {
    forall i | 0 <= i < |ls| ensures MemosOf(ls)[i] == old(MemosOf(ls))[i] {
      CachesHas(ls, i);
      assert old(ls[i].Caches()) <= old(CachesOf(ls));
    }
  }

  /** Layers that kept their objects and the arrays each remembers by keep what they remember. */
  twostate lemma MemosEach(ls: seq<Layer>)
    requires forall i :: 0 <= i < |ls| ==> old(ls[i].Valid()) && unchanged(ls[i]) && unchanged(ls[i].MemoArrays())
    ensures forall i :: 0 <= i < |ls| ==> ls[i].Valid()
    ensures MemosOf(ls) == old(MemosOf(ls))
  {
    forall i | 0 <= i < |ls| ensures ls[i].Valid() && ls[i].Remembered() == old(ls[i].Remembered()) {
      ls[i].RememberedKept();
    }
  }

  /** The stages of all but the last layer, then the last layer's, are the stages of all. */
  lemma SnapshotsSnoc(front: seq<Stage>, ls: seq<Layer>)
    requires |ls| > 0 && |front| == |ls| - 1 && forall i :: 0 <= i < |ls| ==> ls[i].Valid()
    requires forall i :: 0 <= i < |front| ==> front[i] == ls[..|ls| - 1][i].Snapshot()
    ensures forall i :: 0 <= i < |ls| ==> (front + [ls[|ls| - 1].Snapshot()])[i] == ls[i].Snapshot()
  {
    assert forall i :: 0 <= i < |front| ==> ls[..|ls| - 1][i] == ls[i];
  }

  /** The output shape of each layer of ls, in chain order. */
  ghost function ShapesOf(ls: seq<Layer>): (shapes: seq<(nat, nat)>)
    reads ls
    requires forall i :: 0 <= i < |ls| ==> ls[i].output != null
    ensures |shapes| == |ls|
    ensures forall i :: 0 <= i < |ls| ==> shapes[i] == (ls[i].output.rows, ls[i].output.cols)
  {
    if |ls| == 0 then [] else ShapesOf(ls[..|ls| - 1]) + [(ls[|ls| - 1].output.rows, ls[|ls| - 1].output.cols)]
  }

  /** Layers that each compute what they did compute, together, the stages they did. */
  twostate lemma {:induction false} StagesKept(ls: seq<Layer>)
    requires forall j :: 0 <= j < |ls| ==> old(ls[j].Valid()) && ls[j].Valid()
    requires forall j :: 0 <= j < |ls| ==> ls[j].Snapshot() == old(ls[j].Snapshot())
    ensures StagesOf(ls) == old(StagesOf(ls))
    decreases |ls|
  {
    if |ls| > 0 {
      StagesKept(ls[..|ls| - 1]);
    }
  }

  /** matrix_create and matrix_copy of target, then matrix_subtract(out, copy): out becomes out − target. */
  method SubtractCopy(out: Matrix, target: Matrix)
    requires out.Valid() && target.Valid() && out.rows == target.rows && out.cols == target.cols
    modifies out.data
    ensures out.Elems() == ZipGrid(old(out.Elems()), old(target.Elems()), Minus)
  {
    var copy := CopyOf(target);
    Subtract(out, copy);
  }

  // ---- The network object ----

  class Network {
    var layers: seq<Layer>
    var layerCount: int
    var optimizer: Optimizer?
    var learningRate: real
    var l2Lambda: real
    var dropoutRate: real
    var isTraining: bool

    /**
     * layer_count counts the chain; every layer is valid; no layer occurs twice and
     * no two layers share an array.
     */
    ghost predicate Valid()
      reads `layers, `layerCount, `optimizer, layers
    {
      layerCount == |layers| && LayersFine(layers)
    }

    /** The optimizer, if there is one, is valid and no layer holds one of its moment buffers. */
    ghost predicate OptimizerFine()
      reads `layers, `layerCount, `optimizer, layers, optimizer
    {
      optimizer != null ==> optimizer.Valid() && MomentsApart(optimizer)
    }

    /** Not one moment buffer of opt is held by a layer of the chain. */
    ghost predicate MomentsApart(opt: Optimizer)
      reads `layers, `layerCount, `optimizer, layers, opt
    {
      NoneHeld(layers, opt.m) && NoneHeld(layers, opt.v)
    }

    /** No layer of the chain holds the array a. */
    ghost predicate Foreign(a: array<real>)
      reads `layers, `layerCount, `optimizer, layers
    {
      forall i :: 0 <= i < |layers| ==> a !in layers[i].Arrays()
    }

    /** An array no layer holds is outside what the layers hold together. */
    lemma ForeignNotHeld(a: array<real>)
      requires Foreign(a)
      ensures a !in HeldBy(layers)
    {
    }

    /** The optimizer holds the chain's parameters and gradients, in chain order. */
    ghost predicate Compiled()
      reads `layers, `layerCount, `optimizer, layers, optimizer
      requires Valid()
    {
      AllPaired();
      optimizer != null && optimizer.params == ParamsOf(layers) && optimizer.grads == GradsOf(layers)
    }

    lemma AllPaired()
      requires Valid()
      ensures AllPairedIn(layers) && forall k :: 0 <= k <= |layers| ==> AllPairedIn(layers[..k])
    {
      forall k | 0 <= k < |layers| ensures Paired(layers[k]) {
        assert layers[k].Valid();
      }
    }

    /** network_create: an empty chain, no optimizer, every number 0. */
    constructor ()
      ensures Valid() && layers == [] && layerCount == 0 && optimizer == null
      ensures learningRate == 0.0 && l2Lambda == 0.0 && dropoutRate == 0.0 && !isTraining
    {
      layers, layerCount, optimizer := [], 0, null;
      learningRate, l2Lambda, dropoutRate, isTraining := 0.0, 0.0, 0.0, false;
    }

    /** The input layer, or null for an empty chain. */
    function InputLayer(): Layer?
      reads `layers, `layerCount, `optimizer
    {
      if |layers| == 0 then null else layers[0]
    }

    /** The output layer, or null for an empty chain. */
    function OutputLayer(): Layer?
      reads `layers, `layerCount, `optimizer
    {
      if |layers| == 0 then null else layers[|layers| - 1]
    }

    /** The `next` of the layer at position i: the one after it, or null for the last. */
    function Next(i: nat): Layer?
      reads `layers, `layerCount, `optimizer
    {
      if i + 1 < |layers| then layers[i + 1] else null
    }

    /**
     * network_add_layer: the layer goes at the tail.  The first one becomes both the
     * input and the output layer; later ones become the old tail's `next` and the
     * new output layer.  layer_count goes up by one.
     */
    method AddLayer(layer: Layer)
      requires Valid() && OptimizerFine() && layer.Valid() && layer !in layers
      requires forall i :: 0 <= i < |layers| ==> layers[i].Arrays() !! layer.Arrays()
      requires optimizer != null ==> forall k :: 0 <= k < |optimizer.m| ==> optimizer.m[k].data !in layer.Arrays()
      requires optimizer != null ==> forall k :: 0 <= k < |optimizer.v| ==> optimizer.v[k].data !in layer.Arrays()
      modifies this`layers, this`layerCount
      ensures Valid() && OptimizerFine() && layers == old(layers) + [layer] && layerCount == old(layerCount) + 1
      ensures OutputLayer() == layer && Next(|layers| - 1) == null
      ensures old(|layers|) == 0 ==> InputLayer() == layer
      ensures old(|layers|) > 0 ==> InputLayer() == old(InputLayer()) && Next(old(|layers|) - 1) == layer
    {
      FineAppend(layers, layer);
      if optimizer != null {
        NoneHeldAppend(layers, layer, optimizer.m);
        NoneHeldAppend(layers, layer, optimizer.v);
      }
      layers, layerCount := layers + [layer], layerCount + 1;
    }

    /**
     * network_set_optimizer: the optimizer is replaced, nothing is bound.  No layer
     * may hold one of its moment buffers.
     */
    method SetOptimizer(opt: Optimizer?)
      requires Valid() && (opt != null ==> opt.Valid() && MomentsApart(opt))
      modifies this`optimizer
      ensures Valid() && OptimizerFine() && optimizer == opt
    {
      optimizer := opt;
    }

    /** network_compile's counting loop: the number of non-null weights and biases along the chain. */
    method CountParams() returns (total: nat)
      ensures total == |ParamsOf(layers)|
    {
      total := 0;
      var k := 0;
      while k < |layers|
        invariant k <= |layers| && total == ParamCount(layers[..k])
      {
        ParamsOfStep(layers, k);
        if layers[k].weights != null {
          total := total + 1;
        }
        if layers[k].biases != null {
          total := total + 1;
        }
        k := k + 1;
      }
      assert layers[..k] == layers;
      ParamCountIsBound(layers);
    }

    /**
     * network_compile(opt, l2): the optimizer and the L2 factor are stored; with an
     * optimizer, its lists are rebuilt to hold every parameter of the chain in chain
     * order (each layer's weights before its biases) with its gradient and fresh
     * moment buffers; param_count is the number the counting loop found.
     */
    method Compile(opt: Optimizer?, l2: real)
      requires Valid()
      modifies this`optimizer, this`l2Lambda
      modifies if opt != null then {opt} else {}
      ensures Valid() && OptimizerFine() && optimizer == opt && l2Lambda == l2 && layers == old(layers)
      ensures opt != null ==> Compiled() && opt.paramCount == ParamCount(layers) && opt.MomentsNonNeg() && opt.MomentsZero()
    {
      var total := CountParams();
      optimizer := opt;
      l2Lambda := l2;
      FineKept(layers);
      if opt != null {
        BindChain(opt, layers);
        assert opt.paramCount == total;
      }
    }

    /** Every layer has an output: each has run forward at least once. */
    ghost predicate HasOutputs()
      reads `layers, `layerCount, `optimizer, layers
    {
      forall j :: 0 <= j < |layers| ==> layers[j].output != null
    }

    /** What each layer computes, as values, in chain order. */
    ghost function Stages(): (sts: seq<Stage>)
      reads `layers, `layerCount, `optimizer, layers, ParamArrays(layers)
      requires Valid()
      ensures |sts| == |layers| && forall i :: 0 <= i < |layers| ==> sts[i] == layers[i].Snapshot()
    {
      StagesOf(layers)
    }

    /** What each layer keeps for its backward pass, in chain order. */
    ghost function Memos(): (ms: seq<Memo>)
      reads `layers, `layerCount, `optimizer, layers, CachesOf(layers)
      requires Valid()
      ensures |ms| == |layers| && forall i {:trigger ms[i]} :: 0 <= i < |layers| ==> ms[i] == layers[i].Remembered()
    {
      MemosOf(layers)
    }

    /**
     * After k rounds of a forward pass of the stages S0 on x, the first k layers hold
     * what the pass left them.
     */
    ghost predicate MemosUpTo(k: nat, S0: seq<Stage>, X0: Grid, rows: nat, cols: nat, draws: seq<seq<real>>, lm: Libm)
      reads `layers, layers, CachesOf(layers)
    {
      && Lawful(lm) && IsShape(X0, rows, cols) && ChainFits(S0, rows, cols, draws)
      && (forall j :: 0 <= j < |layers| ==> layers[j].Valid())
      && MemosUntil(MemosOf(layers), k, S0, X0, rows, cols, draws, lm)
    }

    /**
     * After layer k alone ran forward on what the first k stages make of X0, the
     * first k + 1 layers hold what the pass left them.
     */
    twostate lemma MemoAfter(new k: nat, new S0: seq<Stage>, new X0: Grid, new rows: nat, new cols: nat,
                             new draws: seq<seq<real>>, new lm: Libm)
      requires old(MemosUpTo(k, S0, X0, rows, cols, draws, lm) && k < |layers| && Valid() && StagesOf(layers) == S0)
      requires unchanged(this)
      requires forall j :: 0 <= j < |layers| && j != k ==> unchanged(layers[j])
      requires forall a: array<real> :: old(allocated(a)) && a !in old(layers[k].ForwardFrame()) ==> unchanged(a)
      requires layers[k].Valid() && layers[k].Snapshot() == old(layers[k].Snapshot())
      requires layers[k].input != null && layers[k].input.Elems() == Run(S0, X0, rows, cols, draws, lm, k)
      requires layers[k].kind == Dense && layers[k].activation != 0 ==>
        layers[k].gradInput != null && layers[k].gradInput.Elems() == layers[k].PreActivation(layers[k].input.Elems(), layers[k].input.rows)
      ensures MemosUpTo(k + 1, S0, X0, rows, cols, draws, lm)
    {
      forall j | 0 <= j < |layers| && j != k ensures layers[j].Valid() {
        assert old(layers[j].Valid());
      }
      ghost var ms := MemosOf(layers);
      forall j | 0 <= j < k ensures MemoFrom(ms[j], S0, X0, rows, cols, draws, lm, j) {
        assert old(MemoFrom(MemosOf(layers)[j], S0, X0, rows, cols, draws, lm, j));
        assert old(LayerApart(layers[j], layers[k]));
        MemoUntouched(j, old(layers[k].ForwardFrame()));
      }
      assert old(layers[k].Snapshot()) == S0[k];
      MemoHere(k, S0, X0, rows, cols, draws, lm);
    }

    /** A layer that kept its fields and every array outside F, none of them its own, remembers what it did. */
    twostate lemma MemoUntouched(new j: nat, new F: set<array<real>>)
      requires j < |layers| && old(j < |layers|) && layers[j] == old(layers[j])
      requires old(layers[j].Valid()) && unchanged(layers[j])
      requires old(layers[j].Arrays() !! F)
      requires forall a: array<real> :: old(allocated(a)) && a !in F ==> unchanged(a)
      ensures layers[j].Valid() && layers[j].Remembered() == old(layers[j].Remembered())
    {
    }

    /** Every layer has the kind, sizes and activation of its stage in S0. */
    ghost predicate SettledAs(S0: seq<Stage>)
      reads `layers, layers
    {
      |layers| == |S0| && forall j :: 0 <= j < |layers| ==> layers[j].Settled(S0[j])
    }

    /**
     * Gradients GradsFrom gives from the caches of the forward pass of S0 on X0 are the
     * chain's gradients of that pass: the weight or bias gradient of stage j, for the
     * gradient Incoming hands layer j.
     */
    lemma GradsOfRun(gs: seq<Matrix>, es: seq<Entry>, seed: Grid, S0: seq<Stage>, X0: Grid, rows: nat, cols: nat,
                     draws: seq<seq<real>>, lm: Libm)
      requires Valid() && HasOutputs() && Lawful(lm) && 0 < |layers|
      requires IsShape(seed, OutputLayer().output.rows, OutputLayer().output.cols)
      requires IsShape(X0, rows, cols) && ChainFits(S0, rows, cols, draws)
      requires SettledAs(S0) && MemosFrom(Memos(), S0, X0, rows, cols, draws, lm) && GradsFrom(gs, es, seed, lm)
      ensures forall j :: 0 <= j < |layers| ==> layers[j].output.rows == rows
      ensures forall k, j :: 0 <= k < |gs| && k < |es| && 0 <= j < |layers| && layers[j].kind == Dense ==>
        && (gs[k] == layers[j].gradWeights ==>
              es[k].grad == ChainWeightGradient(S0, X0, rows, cols, draws, lm, j, Incoming(seed, Shapes(), j)))
        && (gs[k] == layers[j].gradBiases ==>
              es[k].grad == ChainBiasGradient(S0, X0, rows, cols, draws, lm, j, Incoming(seed, Shapes(), j)))
    {
      forall j | 0 <= j < |layers| ensures layers[j].output.rows == rows {
        assert layers[j].Valid() && Memos()[j] == layers[j].Remembered();
        assert MemoFrom(Memos()[j], S0, X0, rows, cols, draws, lm, j);
        assert |layers[j].input.Elems()| == rows;
      }
      forall k, j | 0 <= k < |gs| && k < |es| && 0 <= j < |layers| && layers[j].kind == Dense
        ensures gs[k] == layers[j].gradWeights ==>
          es[k].grad == ChainWeightGradient(S0, X0, rows, cols, draws, lm, j, Incoming(seed, Shapes(), j))
        ensures gs[k] == layers[j].gradBiases ==>
          es[k].grad == ChainBiasGradient(S0, X0, rows, cols, draws, lm, j, Incoming(seed, Shapes(), j))
      {
        CachedGradients(j, S0, X0, rows, cols, draws, lm, Incoming(seed, Shapes(), j));
      }
    }

    /**
     * What dense_backward computes at dense layer j from its caches, for any gradient
     * og handed to it, is the gradient the chain defines at stage j for the forward
     * pass the caches came from: the caches stand for that pass and no other.
     */
    lemma CachedGradients(j: nat, S0: seq<Stage>, X0: Grid, rows: nat, cols: nat, draws: seq<seq<real>>, lm: Libm, og: Grid)
      requires Valid() && Lawful(lm) && IsShape(X0, rows, cols) && ChainFits(S0, rows, cols, draws)
      requires SettledAs(S0) && MemosFrom(Memos(), S0, X0, rows, cols, draws, lm)
      requires j < |layers| && layers[j].kind == Dense && IsShape(og, rows, layers[j].outputSize)
      ensures layers[j].input != null && layers[j].output != null && layers[j].output.rows == rows
      ensures layers[j].WeightGradient(og, lm) == ChainWeightGradient(S0, X0, rows, cols, draws, lm, j, og)
      ensures layers[j].BiasGradient(og, lm) == ChainBiasGradient(S0, X0, rows, cols, draws, lm, j, og)
    {
      var l := layers[j];
      assert l.Valid() && l.Settled(S0[j]);
      assert Memos()[j] == l.Remembered();
      assert MemoFrom(Memos()[j], S0, X0, rows, cols, draws, lm, j);
      assert l.input.Elems() == Run(S0, X0, rows, cols, draws, lm, j);
    }

    /** Round 0 starts from the input itself, with no layer covered and none holding anything yet. */
    lemma MidwayStart(x: Matrix, S0: seq<Stage>, H0: set<array<real>>, X0: Grid, draws: seq<seq<real>>, lm: Libm)
      requires Reached(0, x, x.rows, x.cols, S0, H0, X0) && Lawful(lm) && ChainFits(S0, x.rows, x.cols, draws)
      ensures x.Valid() && Midway(0, x, x.rows, x.cols, S0, H0, X0, x.Elems(), [], draws, lm)
    {
      assert forall j :: 0 <= j < |layers| ==> layers[j].Valid();
    }

    /** Layer k, which ran forward on what the first k stages make of X0, holds what the pass left it. */
    lemma MemoHere(k: nat, S0: seq<Stage>, X0: Grid, rows: nat, cols: nat, draws: seq<seq<real>>, lm: Libm)
      requires k < |layers| == |S0| && layers[k].Valid() && Lawful(lm) && IsShape(X0, rows, cols) && ChainFits(S0, rows, cols, draws)
      requires layers[k].Snapshot() == S0[k]
      requires layers[k].input != null && layers[k].input.Elems() == Run(S0, X0, rows, cols, draws, lm, k)
      requires layers[k].kind == Dense && layers[k].activation != 0 ==>
        layers[k].gradInput != null && layers[k].gradInput.Elems() == layers[k].PreActivation(layers[k].input.Elems(), layers[k].input.rows)
      ensures MemoFrom(layers[k].Remembered(), S0, X0, rows, cols, draws, lm, k)
    {
    }

    /** Every layer's buffers fit the shape that reaches it from a rows × cols input. */
    ghost predicate Takes(rows: nat, cols: nat)
      reads `layers, `layerCount, `optimizer, layers, ParamArrays(layers)
      requires Valid()
    {
      forall k :: 0 <= k < |layers| ==> ReadyAt(k, rows, cols, Stages())
    }

    /** Layer j's buffers fit what the stages sts before it make of a rows × cols input. */
    ghost predicate ReadyAt(j: nat, rows: nat, cols: nat, sts: seq<Stage>)
      reads `layers, `layerCount, `optimizer, layers[j]
      requires j < |layers| && j <= |sts|
    {
      layers[j].Accepts(rows, ColsTo(sts, cols, j))
    }

    /**
     * After a step that changed layer k alone, left it valid and gave it no array but
     * the ones it had and new ones, the network and its optimizer are as fine as before.
     */
    twostate lemma ChainKept(new k: nat)
      requires old(Valid()) && old(OptimizerFine()) && k < |layers|
      requires unchanged(this) && (optimizer != null ==> unchanged(optimizer))
      requires forall j :: 0 <= j < |layers| && j != k ==> unchanged(layers[j])
      requires layers[k].Valid()
      requires forall a :: a in layers[k].Arrays() ==> a in old(layers[k].Arrays()) || fresh(a)
      ensures Valid() && OptimizerFine()
    {
      FineAfterStep(layers, k);
      if optimizer != null {
        var opt := optimizer;
        forall i, a | 0 <= i < |layers| && 0 <= a < |opt.m|
          ensures opt.m[a].data !in layers[i].Arrays()
        {
          assert old(allocated(opt.m[a].data));
        }
        forall i, a | 0 <= i < |layers| && 0 <= a < |opt.v|
          ensures opt.v[a].data !in layers[i].Arrays()
        {
          assert old(allocated(opt.v[a].data));
        }
      }
    }

    /**
     * After a forward step of layer k alone, which kept its stage, the network is as
     * fine as before and every layer computes what it did.
     */
    twostate lemma StepKept(new k: nat)
      requires old(Valid()) && old(OptimizerFine()) && k < |layers|
      requires unchanged(this) && (optimizer != null ==> unchanged(optimizer))
      requires forall j :: 0 <= j < |layers| && j != k ==> unchanged(layers[j])
      requires forall a: array<real> :: old(allocated(a)) && a !in old(layers[k].ForwardFrame()) ==> unchanged(a)
      requires layers[k].Valid() && layers[k].Snapshot() == old(layers[k].Snapshot())
      requires forall a :: a in layers[k].Arrays() ==> a in old(layers[k].Arrays()) || fresh(a)
      ensures Valid() && OptimizerFine()
      ensures forall j :: 0 <= j < |layers| ==> layers[j].Snapshot() == old(layers[j].Snapshot())
    {
      ChainKept(k);
      SnapshotsAfterStep(layers, k);
    }

    /**
     * Where network_forward's loop stands after k rounds of a run on a rows × cols
     * input with the stages S0: every layer still computes its stage, the layers
     * still to run are as Ahead says, and cur, the last output (the input itself
     * before the first round), is contiguous, has the shape the first k stages
     * give and holds the values vals.
     */
    ghost predicate Reached(k: nat, cur: Matrix, rows: nat, cols: nat, S0: seq<Stage>, H0: set<array<real>>, vals: Grid)
      reads `layers, `layerCount, `optimizer, layers, ParamArrays(layers), cur.data
    {
      && Valid() && k <= |layers| == |S0|
      && StagesOf(layers) == S0
      && Ahead(k, cur, rows, cols, S0, H0)
      && (k > 0 ==> cur == layers[k - 1].output)
      && (forall j :: 0 <= j < k ==> layers[j].output != null)
      && cur.Valid() && cur.stride == cur.cols && cur.rows == rows && cur.cols == ColsTo(S0, cols, k)
      && cur.Elems() == vals
    }

    /**
     * The layers from k on can take what reaches them, hold none but the arrays H0
     * and not cur's.
     */
    ghost predicate Ahead(k: nat, cur: Matrix, rows: nat, cols: nat, S0: seq<Stage>, H0: set<array<real>>)
      reads `layers, `layerCount, `optimizer, layers
      requires |layers| == |S0|
    {
      && (forall j :: k <= j < |layers| ==> ReadyAt(j, rows, cols, S0))
      && (forall j :: k <= j < |layers| ==> layers[j].Arrays() <= H0)
      && (forall j :: k <= j < |layers| ==> cur.data !in layers[j].Arrays())
    }

    /**
     * Round k + 1 is reached from round k when layer k alone changed: it kept its
     * stage, gained no array but new ones, and `next` is its output, of the shape
     * its stage gives.
     */
    twostate lemma ReachedAfter(new k: nat, new cur: Matrix, new next: Matrix, new rows: nat, new cols: nat,
                                new S0: seq<Stage>, new H0: set<array<real>>, new vals: Grid)
      requires old(allocated(cur)) && old(allocated(H0))
      requires old(Reached(k, cur, rows, cols, S0, H0, vals) && OptimizerFine() && k < |layers|)
      requires unchanged(this) && (optimizer != null ==> unchanged(optimizer))
      requires forall j :: 0 <= j < |layers| && j != k ==> unchanged(layers[j])
      requires forall a: array<real> :: old(allocated(a)) && a !in old(layers[k].ForwardFrame()) ==> unchanged(a)
      requires layers[k].Valid() && layers[k].Snapshot() == old(layers[k].Snapshot())
      requires forall a :: a in layers[k].Arrays() ==> a in old(layers[k].Arrays()) || fresh(a)
      requires next == layers[k].output && next.rows == cur.rows && next.cols == layers[k].OutCols(cur.cols)
      ensures Reached(k + 1, next, rows, cols, S0, H0, next.Elems()) && OptimizerFine()
    {
      FrontAfter(k, S0);
      AheadAfter(k, cur, next, rows, cols, S0, H0);
      assert OwnedIfThere(layers[k].output);
    }

    /**
     * After a forward step of layer k alone, the network is as fine as before, still
     * computes the stages S0, and the layers up to k have their outputs.
     */
    twostate lemma FrontAfter(new k: nat, new S0: seq<Stage>)
      requires old(Valid() && OptimizerFine() && k < |layers| == |S0| && StagesOf(layers) == S0)
      requires old(forall j :: 0 <= j < k ==> layers[j].output != null)
      requires unchanged(this) && (optimizer != null ==> unchanged(optimizer))
      requires forall j :: 0 <= j < |layers| && j != k ==> unchanged(layers[j])
      requires forall a: array<real> :: old(allocated(a)) && a !in old(layers[k].ForwardFrame()) ==> unchanged(a)
      requires layers[k].Valid() && layers[k].Snapshot() == old(layers[k].Snapshot())
      requires forall a :: a in layers[k].Arrays() ==> a in old(layers[k].Arrays()) || fresh(a)
      requires layers[k].output != null
      ensures Valid() && OptimizerFine() && StagesOf(layers) == S0
      ensures forall j :: 0 <= j < k + 1 ==> layers[j].output != null
    {
      StepKept(k);
      assert forall j :: 0 <= j < k ==> old(layers[j].output) != null;
    }

    /** Ahead moves on by one once layer k alone changed and `next` is its output. */
    twostate lemma AheadAfter(new k: nat, new cur: Matrix, new next: Matrix, new rows: nat, new cols: nat,
                              new S0: seq<Stage>, new H0: set<array<real>>)
      requires old(allocated(cur)) && old(allocated(H0))
      requires old(|layers| == |S0| && Ahead(k, cur, rows, cols, S0, H0) && k < |layers|)
      requires unchanged(this)
      requires forall j :: 0 <= j < |layers| && j != k ==> unchanged(layers[j])
      requires Valid() && next == layers[k].output
      ensures |layers| == |S0| && Ahead(k + 1, next, rows, cols, S0, H0)
    {
      forall j | k < j < |layers| ensures ReadyAt(j, rows, cols, S0) && layers[j].Arrays() <= H0 {
        assert old(ReadyAt(j, rows, cols, S0) && layers[j].Arrays() <= H0);
      }
      forall j | k < j < |layers| ensures next.data !in layers[j].Arrays() {
        OutputApart(layers, k, j);
      }
    }

    /**
     * layer->forward(layer, cur) inside network_forward's loop: layer k runs on cur
     * and nothing but its own forward buffers changes.
     */
    method ForwardStep(k: nat, cur: Matrix, ghost rows: nat, ghost cols: nat, ghost S0: seq<Stage>,
                       ghost H0: set<array<real>>, ghost vals: Grid, draws: seq<seq<real>>, lm: Libm)
      requires Reached(k, cur, rows, cols, S0, H0, vals) && k < |layers| && k < |draws| && Lawful(lm)
      requires StageFits(S0[k], rows, ColsTo(S0, cols, k), draws[k])
      modifies layers[k], layers[k].ForwardFrame()
      ensures forall j :: 0 <= j < |layers| && j != k ==> unchanged(layers[j])
      ensures forall a: array<real> :: old(allocated(a)) && a !in old(layers[k].ForwardFrame()) ==> unchanged(a)
      ensures layers[k].Valid() && layers[k].Snapshot() == old(layers[k].Snapshot())
      ensures forall a :: a in layers[k].Arrays() ==> a in old(layers[k].Arrays()) || fresh(a)
      ensures layers[k].output != null && layers[k].output.rows == cur.rows && layers[k].output.cols == layers[k].OutCols(cur.cols)
      ensures layers[k].output.Elems() == StageOutput(S0[k], vals, rows, ColsTo(S0, cols, k), draws[k], lm)
      ensures layers[k].input != null && layers[k].input.Elems() == vals
      ensures layers[k].kind == Dense && layers[k].activation != 0 ==>
        layers[k].gradInput != null && layers[k].gradInput.Elems() == layers[k].PreActivation(layers[k].input.Elems(), layers[k].input.rows)
      ensures unchanged(this) && (optimizer != null ==> unchanged(optimizer))
    {
      assert ReadyAt(k, rows, cols, S0);
      OthersApart(layers, k);
      var l := layers[k];
      l.Forward(cur, draws[k], lm);
      assert unchanged(this);
    }

    /**
     * One round of network_forward's loop: layer k runs on cur, and its output becomes
     * the next cur; more lists the arrays layer k holds after it.
     */
    method Advance(k: nat, cur: Matrix, ghost rows: nat, ghost cols: nat, ghost S0: seq<Stage>,
                   ghost H0: set<array<real>>, ghost X0: Grid, ghost vals: Grid, draws: seq<seq<real>>, lm: Libm,
                   ghost held: seq<array<real>>) returns (next: Matrix, ghost more: seq<array<real>>)
      requires Reached(k, cur, rows, cols, S0, H0, vals) && OptimizerFine() && k < |layers| && k < |draws| && Lawful(lm)
      requires StageFits(S0[k], rows, ColsTo(S0, cols, k), draws[k])
      requires Covered(layers, k, held)
      requires MemosUpTo(k, S0, X0, rows, cols, draws, lm) && vals == Run(S0, X0, rows, cols, draws, lm, k)
      modifies layers[k], layers[k].ForwardFrame()
      ensures next.Valid() && Reached(k + 1, next, rows, cols, S0, H0, next.Elems()) && OptimizerFine()
      ensures next.Elems() == StageOutput(S0[k], vals, rows, ColsTo(S0, cols, k), draws[k], lm)
      ensures Covered(layers, k + 1, held + more)
      ensures forall i :: 0 <= i < |more| ==> more[i] in H0 || fresh(more[i])
      ensures unchanged(this) && (optimizer != null ==> unchanged(optimizer))
      ensures MemosUpTo(k + 1, S0, X0, rows, cols, draws, lm)
    {
      ForwardMemo(k, cur, rows, cols, S0, H0, X0, vals, draws, lm);
      next := layers[k].output;
      more := SlotsOf(layers[k]);
      Advanced(k, cur, next, rows, cols, S0, H0, X0, vals, held, draws, lm);
    }

    /** After layer k's forward step, round k + 1 is reached and held with more covers layer k too. */
    twostate lemma Advanced(new k: nat, new cur: Matrix, new next: Matrix, new rows: nat, new cols: nat,
                            new S0: seq<Stage>, new H0: set<array<real>>, new X0: Grid, new vals: Grid,
                            new held: seq<array<real>>, new draws: seq<seq<real>>, new lm: Libm)
      requires old(allocated(cur)) && old(allocated(H0)) && old(allocated(held))
      requires old(Reached(k, cur, rows, cols, S0, H0, vals) && OptimizerFine() && k < |layers|)

      requires old(Covered(layers, k, held))
      requires unchanged(this) && (optimizer != null ==> unchanged(optimizer))
      requires forall j :: 0 <= j < |layers| && j != k ==> unchanged(layers[j])
      requires forall a: array<real> :: old(allocated(a)) && a !in old(layers[k].ForwardFrame()) ==> unchanged(a)
      requires layers[k].Valid() && layers[k].Snapshot() == old(layers[k].Snapshot())
      requires forall a :: a in layers[k].Arrays() ==> a in old(layers[k].Arrays()) || fresh(a)
      requires next == layers[k].output && next.rows == cur.rows && next.cols == layers[k].OutCols(cur.cols)
      ensures next.Valid() && Reached(k + 1, next, rows, cols, S0, H0, next.Elems()) && OptimizerFine()
      ensures Covered(layers, k + 1, held + SlotsOf(layers[k]))
      ensures forall i :: 0 <= i < |SlotsOf(layers[k])| ==> SlotsOf(layers[k])[i] in H0 || fresh(SlotsOf(layers[k])[i])
    {
      ReachedAfter(k, cur, next, rows, cols, S0, H0, vals);
      assert old(layers[k].Arrays() <= H0);
      CoveredStep(layers, k, held, H0);
    }

    /** Before round k, layer k fits what reaches it and may change only arrays of H0. */
    lemma RoundReady(k: nat, cur: Matrix, rows: nat, cols: nat, S0: seq<Stage>, H0: set<array<real>>, vals: Grid,
                     draws: seq<seq<real>>)
      requires Reached(k, cur, rows, cols, S0, H0, vals) && k < |layers| && ChainFits(S0, rows, cols, draws)
      ensures k < |draws| && StageFits(S0[k], rows, ColsTo(S0, cols, k), draws[k])
      ensures layers[k].Arrays() <= H0 && layers[k].ForwardFrame() <= H0
    {
      assert layers[k].Valid();
    }

    /**
     * One round of network_forward's loop; held gains the arrays layer k holds after
     * it, each of them one it held before (in H0) or a fresh one.
     */
    /** Layer k's forward step, after which the first k + 1 layers hold what the pass left them. */
    method ForwardMemo(k: nat, cur: Matrix, ghost rows: nat, ghost cols: nat, ghost S0: seq<Stage>,
                       ghost H0: set<array<real>>, ghost X0: Grid, ghost vals: Grid, draws: seq<seq<real>>, lm: Libm)
      requires Reached(k, cur, rows, cols, S0, H0, vals) && k < |layers| && k < |draws| && Lawful(lm)
      requires StageFits(S0[k], rows, ColsTo(S0, cols, k), draws[k])
      requires MemosUpTo(k, S0, X0, rows, cols, draws, lm) && vals == Run(S0, X0, rows, cols, draws, lm, k)
      modifies layers[k], layers[k].ForwardFrame()
      ensures forall j :: 0 <= j < |layers| && j != k ==> unchanged(layers[j])
      ensures forall a: array<real> :: old(allocated(a)) && a !in old(layers[k].ForwardFrame()) ==> unchanged(a)
      ensures layers[k].Valid() && layers[k].Snapshot() == old(layers[k].Snapshot())
      ensures forall a :: a in layers[k].Arrays() ==> a in old(layers[k].Arrays()) || fresh(a)
      ensures layers[k].output != null && layers[k].output.rows == cur.rows && layers[k].output.cols == layers[k].OutCols(cur.cols)
      ensures layers[k].output.Elems() == StageOutput(S0[k], vals, rows, ColsTo(S0, cols, k), draws[k], lm)
      ensures unchanged(this) && (optimizer != null ==> unchanged(optimizer))
      ensures MemosUpTo(k + 1, S0, X0, rows, cols, draws, lm)
    {
      ForwardStep(k, cur, rows, cols, S0, H0, vals, draws, lm);
      MemoAfter(k, S0, X0, rows, cols, draws, lm);
    }

    /**
     * What holds at the head of round k of network_forward's loop: cur holds what the
     * first k stages make of X0, held covers the first k layers, and each of them
     * holds what its forward step left it.
     */
    ghost predicate Midway(k: nat, cur: Matrix, rows: nat, cols: nat, S0: seq<Stage>, H0: set<array<real>>, X0: Grid,
                           vals: Grid, held: seq<array<real>>, draws: seq<seq<real>>, lm: Libm)
      reads `layers, `layerCount, `optimizer, layers, ParamArrays(layers), cur.data, CachesOf(layers)
    {
      && Reached(k, cur, rows, cols, S0, H0, vals)
      && Lawful(lm) && IsShape(X0, rows, cols) && ChainFits(S0, rows, cols, draws)
      && vals == Run(S0, X0, rows, cols, draws, lm, k)
      && Covered(layers, k, held)
      && MemosUpTo(k, S0, X0, rows, cols, draws, lm)
    }

    method Round(k: nat, cur: Matrix, ghost rows: nat, ghost cols: nat, ghost S0: seq<Stage>,
                 ghost H0: set<array<real>>, ghost X0: Grid, ghost vals: Grid, draws: seq<seq<real>>, lm: Libm,
                 ghost held: seq<array<real>>) returns (next: Matrix, ghost more: seq<array<real>>)
      requires Midway(k, cur, rows, cols, S0, H0, X0, vals, held, draws, lm) && OptimizerFine() && k < |layers|
      modifies layers[k], H0
      ensures unchanged(this) && (optimizer != null ==> unchanged(optimizer))
      ensures next.Valid() && Midway(k + 1, next, rows, cols, S0, H0, X0, next.Elems(), held + more, draws, lm) && OptimizerFine()
      ensures forall i :: 0 <= i < |more| ==> more[i] in H0 || fresh(more[i])
    {
      RoundReady(k, cur, rows, cols, S0, H0, vals, draws);
      next, more := Advance(k, cur, rows, cols, S0, H0, X0, vals, draws, lm, held);
      RunNext(S0, X0, rows, cols, draws, lm, k);
    }

    /**
     * network_forward's loop: the layers run in turn from the input layer on; held
     * ends with every array the layers hold, each one they held before or a fresh one.
     */
    method Rounds(x: Matrix, draws: seq<seq<real>>, lm: Libm, ghost S0: seq<Stage>, ghost H0: set<array<real>>, ghost X0: Grid)
      returns (cur: Matrix, ghost held: seq<array<real>>)
      requires Reached(0, x, x.rows, x.cols, S0, H0, X0) && OptimizerFine() && Lawful(lm)
      requires ChainFits(S0, x.rows, x.cols, draws)
      modifies layers, H0
      ensures unchanged(this) && (optimizer != null ==> unchanged(optimizer))
      ensures cur.Valid() && Reached(|layers|, cur, x.rows, x.cols, S0, H0, cur.Elems()) && OptimizerFine()
      ensures cur.Elems() == Run(S0, X0, x.rows, x.cols, draws, lm, |layers|)
      ensures Covered(layers, |layers|, held)
      ensures NewOrIn(held, H0)
      ensures MemosUpTo(|layers|, S0, X0, x.rows, x.cols, draws, lm)
    {
      held := [];
      cur := x;
      var k := 0;
      MidwayStart(x, S0, H0, X0, draws, lm);
      while k < |layers|
        invariant unchanged(this) && (optimizer != null ==> unchanged(optimizer))
        invariant k <= |layers|
        invariant cur.Valid() && Midway(k, cur, x.rows, x.cols, S0, H0, X0, cur.Elems(), held, draws, lm) && OptimizerFine()
        invariant NewOrIn(held, H0)
      {
        ghost var more;
        cur, more := Round(k, cur, x.rows, x.cols, S0, H0, X0, cur.Elems(), draws, lm, held);
        assert NewOrIn(held + more, H0) by {
          NewOrInAppend(held, more, H0);
        }
        held := held + more;
        k := k + 1;
      }
      MidwayEnd(k, cur, x.rows, x.cols, S0, H0, X0, cur.Elems(), held, draws, lm);
    }

    /** What holds after the last round of network_forward's loop. */
    lemma MidwayEnd(k: nat, cur: Matrix, rows: nat, cols: nat, S0: seq<Stage>, H0: set<array<real>>, X0: Grid,
                    vals: Grid, held: seq<array<real>>, draws: seq<seq<real>>, lm: Libm)
      requires Midway(k, cur, rows, cols, S0, H0, X0, vals, held, draws, lm) && k == |layers|
      ensures Reached(k, cur, rows, cols, S0, H0, cur.Elems()) && cur.Elems() == Run(S0, X0, rows, cols, draws, lm, k)
      ensures Covered(layers, k, held) && MemosUpTo(k, S0, X0, rows, cols, draws, lm)
    {
    }

    /** Before the first round of network_forward's loop, cur is the input itself. */
    lemma ReachedStart(x: Matrix)
      requires Valid() && x.Valid() && x.stride == x.cols && Foreign(x.data)
      requires Takes(x.rows, x.cols)
      ensures Reached(0, x, x.rows, x.cols, Stages(), HeldBy(layers), x.Elems())
    {
    }

    /** After the last round, cur is the output layer's output and every layer computes its stage. */
    lemma ReachedEnd(cur: Matrix, rows: nat, cols: nat, S0: seq<Stage>, H0: set<array<real>>, vals: Grid)
      requires Reached(|layers|, cur, rows, cols, S0, H0, vals)
      ensures Valid() && Stages() == S0
      ensures cur.Valid() && cur.stride == cur.cols && cur.rows == rows && cur.cols == ColsTo(S0, cols, |S0|)
      ensures cur.Elems() == vals
      ensures OutputLayer() != null ==> cur == OutputLayer().output
      ensures HasOutputs()
    {
      assert forall j :: 0 <= j < |S0| ==> Stages()[j] == S0[j];
    }

    /**
     * network_forward's loop: every layer in turn runs on what the one before it
     * produced, the input layer on x; cur ends as the output layer's output.
     */
    method RunChain(x: Matrix, draws: seq<seq<real>>, lm: Libm) returns (cur: Matrix)
      requires Valid() && OptimizerFine() && Lawful(lm)
      requires x.Valid() && x.stride == x.cols && Foreign(x.data)
      requires ChainFits(Stages(), x.rows, x.cols, draws) && Takes(x.rows, x.cols)
      modifies layers, HeldBy(layers)
      ensures Valid() && OptimizerFine() && Stages() == old(Stages())
      ensures cur.Valid() && cur.stride == cur.cols && cur.rows == x.rows && cur.cols == ColsTo(old(Stages()), x.cols, |layers|)
      ensures cur.Elems() == Run(old(Stages()), old(x.Elems()), x.rows, x.cols, draws, lm, |layers|)
      ensures OutputLayer() != null ==> cur == OutputLayer().output
      ensures HasOutputs()
      ensures MemosFrom(Memos(), old(Stages()), old(x.Elems()), x.rows, x.cols, draws, lm)
      ensures forall j, a :: 0 <= j < |layers| && a in layers[j].Arrays() ==> a in old(HeldBy(layers)) || fresh(a)
      ensures unchanged(this) && (optimizer != null ==> unchanged(optimizer))
    {
      ghost var S0 := Stages();
      ghost var X0 := x.Elems();
      ghost var H0 := HeldBy(layers);
      ReachedStart(x);
      ghost var held;
      cur, held := Rounds(x, draws, lm, S0, H0, X0);
      ReachedEnd(cur, x.rows, x.cols, S0, H0, cur.Elems());
      HeldNewOrIn(layers, held, H0);
    }

    /**
     * network_forward: the chain runs on x, and the caller receives a fresh copy of
     * the output layer's output (of x itself when there is no layer).  Neither x nor
     * an array outside the layers is written.
     */
    method Forward(x: Matrix, draws: seq<seq<real>>, lm: Libm) returns (out: Matrix)
      requires Valid() && OptimizerFine() && Lawful(lm)
      requires x.Valid() && x.stride == x.cols && Foreign(x.data)
      requires ChainFits(Stages(), x.rows, x.cols, draws) && Takes(x.rows, x.cols)
      modifies layers, HeldBy(layers)
      ensures Valid() && OptimizerFine() && Stages() == old(Stages())
      ensures fresh(out) && Owned(out) && out.rows == x.rows && out.cols == ColsTo(old(Stages()), x.cols, |layers|)
      ensures out.Elems() == Run(old(Stages()), old(x.Elems()), x.rows, x.cols, draws, lm, |layers|)
      ensures OutputLayer() != null ==> OutputLayer().output != null && OutputLayer().output.Elems() == out.Elems()
      ensures HasOutputs()
      ensures MemosFrom(Memos(), old(Stages()), old(x.Elems()), x.rows, x.cols, draws, lm)
      ensures forall j, a :: 0 <= j < |layers| && a in layers[j].Arrays() ==> a in old(HeldBy(layers)) || fresh(a)
      ensures unchanged(this) && (optimizer != null ==> unchanged(optimizer))
      ensures forall a: array<real> :: old(allocated(a)) && a !in old(HeldBy(layers)) ==> unchanged(a)
    {
      ghost var S0, X0 := Stages(), x.Elems();
      ghost var y := Run(S0, X0, x.rows, x.cols, draws, lm, |layers|);
      var cur := RunChain(x, draws, lm);
      assert cur.Elems() == y;
      ghost var ms := Memos();
      out := Deliver(cur);
      assert Memos() == ms;
    }

    /** The end of network_forward: a fresh copy of cur; nothing that exists changes. */
    method Deliver(cur: Matrix) returns (out: Matrix)
      requires Valid() && OptimizerFine() && cur.Valid()
      ensures fresh(out) && Owned(out) && out.rows == cur.rows && out.cols == cur.cols && out.Elems() == cur.Elems()
      ensures Valid() && OptimizerFine() && Stages() == old(Stages()) && HasOutputs() == old(HasOutputs())
      ensures unchanged(this) && OutputLayer() == old(OutputLayer())
      ensures OutputLayer() != null ==> OutputLayer().output == old(OutputLayer().output) && cur.Elems() == old(cur.Elems())
      ensures Memos() == old(Memos())
    {
      out := CopyOf(cur);
      MemosKept(layers);
    }

    /** The output shape of every layer, in chain order. */
    ghost function Shapes(): (shapes: seq<(nat, nat)>)
      reads `layers, `layerCount, `optimizer, layers
      requires HasOutputs()
      ensures |shapes| == |layers|
      ensures forall j :: 0 <= j < |layers| ==> shapes[j] == (layers[j].output.rows, layers[j].output.cols)
    {
      ShapesOf(layers)
    }

    /** The output layer's output holds seed, the gradient network_backward starts from. */
    ghost predicate SeedHeld(seed: Grid)
      reads `layers, `layerCount, `optimizer, layers, HeldBy(layers)
    {
      && HasOutputs() && 0 < |layers| && layers[|layers| - 1].output.Valid()
      && (OutputHeld(layers, |layers| - 1); layers[|layers| - 1].output.Elems() == seed)
    }

    /**
     * Layer j holds what its backward pass leaves for the gradient Incoming hands it,
     * in a chain whose output shapes are shapes and whose seed is seed.
     */
    ghost predicate DoneAt(j: nat, seed: Grid, shapes: seq<(nat, nat)>, lm: Libm)
      reads `layers, `layerCount, `optimizer, layers
      reads if j < |layers| then {layers[j]} + layers[j].Arrays() else {}
    {
      && j < |layers| == |shapes| && Lawful(lm) && layers[j].Valid() && layers[j].output != null
      && shapes[j] == (layers[j].output.rows, layers[j].output.cols)
      && IsShape(seed, shapes[|shapes| - 1].0, shapes[|shapes| - 1].1)
      && layers[j].BackwardDone(Incoming(seed, shapes, j), lm)
    }

    /** What layer k's backward pass writes is no other layer's, nor the output layer's output. */
    lemma BackwardApart(k: nat)
      requires Valid() && HasOutputs() && k < |layers|
      ensures forall j :: 0 <= j < |layers| && j != k ==> layers[j].Arrays() !! layers[k].BackwardFrame()
      ensures layers[|layers| - 1].output.data !in layers[k].BackwardFrame()
      ensures forall j :: 0 <= j < |layers| ==> allocated(layers[j].Arrays())
    {
      forall j | 0 <= j < |layers| && j != k ensures layers[j].Arrays() !! layers[k].BackwardFrame() {
        if j < k {
          assert LayerApart(layers[j], layers[k]);
        } else {
          assert LayerApart(layers[k], layers[j]);
        }
      }
      forall j | 0 <= j < |layers| ensures allocated(layers[j].Arrays()) {
        layers[j].ArraysAllocated();
      }
      assert layers[k].Valid() && layers[|layers| - 1].Valid();
    }

    /**
     * The body of network_backward's loop for layer k: a fresh matrix of the layer's
     * output shape receives a copy of prev (the output layer's output, or the
     * gradient handed to the layer after k), and the layer runs backward on it;
     * nothing but the layer's own backward buffers changes.
     */
    method BackCall(k: nat, prev: Matrix, lm: Libm) returns (grad: Matrix)
      requires Valid() && Lawful(lm) && HasOutputs() && k < |layers| && prev.Valid()
      modifies layers[k], layers[k].BackwardFrame()
      ensures forall j :: 0 <= j < |layers| && j != k ==> unchanged(layers[j])
      ensures forall a: array<real> :: old(allocated(a)) && a !in old(layers[k].BackwardFrame()) ==> unchanged(a)
      ensures layers[k].Valid() && layers[k].output == old(layers[k].output)
      ensures forall a :: a in layers[k].Arrays() ==> a in old(layers[k].Arrays()) || fresh(a)
      ensures layers[k].BackwardDone(Handed(old(prev.Elems()), layers[k].output.rows, layers[k].output.cols), lm)
      ensures fresh(grad.data) && Owned(grad) && grad.rows == layers[k].output.rows && grad.cols == layers[k].output.cols
      ensures grad.Elems() == Handed(old(prev.Elems()), grad.rows, grad.cols)
      ensures layers[k].Snapshot() == old(layers[k].Snapshot())
      ensures layers[k].Remembered() == old(layers[k].Remembered())
      ensures unchanged(this)
    {
      var layer := layers[k];
      assert layer.Valid();
      OthersApart(layers, k);
      layer.ArraysAllocated();
      grad := HandOn(prev, layer.output.rows, layer.output.cols);
      layer.Backward(grad, lm);
      assert unchanged(this);
    }

    /** BackCall, after which every layer still remembers what its forward step left it. */
    method BackMemo(k: nat, prev: Matrix, lm: Libm) returns (grad: Matrix)
      requires Valid() && Lawful(lm) && HasOutputs() && k < |layers| && prev.Valid()
      modifies layers[k], layers[k].BackwardFrame()
      ensures forall j :: 0 <= j < |layers| && j != k ==> unchanged(layers[j])
      ensures forall a: array<real> :: old(allocated(a)) && a !in old(layers[k].BackwardFrame()) ==> unchanged(a)
      ensures layers[k].Valid() && layers[k].output == old(layers[k].output)
      ensures forall a :: a in layers[k].Arrays() ==> a in old(layers[k].Arrays()) || fresh(a)
      ensures layers[k].BackwardDone(Handed(old(prev.Elems()), layers[k].output.rows, layers[k].output.cols), lm)
      ensures fresh(grad.data) && Owned(grad) && grad.rows == layers[k].output.rows && grad.cols == layers[k].output.cols
      ensures grad.Elems() == Handed(old(prev.Elems()), grad.rows, grad.cols)
      ensures layers[k].Snapshot() == old(layers[k].Snapshot())
      ensures forall j :: 0 <= j < |layers| ==> layers[j].Valid()
      ensures MemosOf(layers) == old(MemosOf(layers))
      ensures unchanged(this)
    {
      BackwardApart(k);
      assert forall j :: 0 <= j < |layers| ==> layers[j].Valid();
      grad := BackCall(k, prev, lm);
      MemosAfterBack(k);
    }

    /** Layer k alone changed and kept its output: every layer keeps its output, the chain its shapes. */
    twostate lemma OutputsKept(new k: nat)
      requires old(HasOutputs()) && k < |layers|
      requires unchanged(this)
      requires forall j :: 0 <= j < |layers| && j != k ==> unchanged(layers[j])
      requires layers[k].output == old(layers[k].output)
      ensures forall j :: 0 <= j < |layers| ==> layers[j].output == old(layers[j].output)
      ensures HasOutputs() && Shapes() == old(Shapes())
    {
      assert forall j :: 0 <= j < |layers| ==> Shapes()[j] == old(Shapes())[j];
    }

    /** After layer k alone ran backward and kept its stage, every layer computes what it did. */
    twostate lemma StagesAfterBack(new k: nat)
      requires old(Valid()) && Valid() && k < |layers| && unchanged(this)
      requires forall j :: 0 <= j < |layers| && j != k ==> unchanged(layers[j])
      requires forall a: array<real> :: old(allocated(a)) && a !in old(layers[k].BackwardFrame()) ==> unchanged(a)
      requires layers[k].Snapshot() == old(layers[k].Snapshot())
      ensures Stages() == old(Stages())
    {
      SnapshotsAfterBack(layers, k);
      StagesKept(layers);
    }

    /** After layer k alone ran backward and kept its caches, every layer remembers what it did. */
    twostate lemma MemosAfterBack(new k: nat)
      requires old(forall j :: 0 <= j < |layers| ==> layers[j].Valid()) && k < |layers| && unchanged(this)
      requires old(forall j :: 0 <= j < |layers| && j != k ==> layers[j].Arrays() !! layers[k].BackwardFrame())
      requires forall j :: 0 <= j < |layers| && j != k ==> unchanged(layers[j])
      requires forall a: array<real> :: old(allocated(a)) && a !in old(layers[k].BackwardFrame()) ==> unchanged(a)
      requires layers[k].Valid() && layers[k].Remembered() == old(layers[k].Remembered())
      ensures forall j :: 0 <= j < |layers| ==> layers[j].Valid()
      ensures MemosOf(layers) == old(MemosOf(layers))
    {
      forall j | 0 <= j < |layers| && j != k ensures layers[j].Valid() && layers[j].Remembered() == old(layers[j].Remembered()) {
        MemoUntouched(j, old(layers[k].BackwardFrame()));
      }
    }

    /** A matrix outside what layer k's backward pass writes keeps its values. */
    twostate lemma ValuesKept(new m: Matrix, new k: nat)
      requires old(allocated(m)) && m.Valid() && k < |layers|
      requires old(k < |layers| && m.data !in layers[k].BackwardFrame())
      requires forall a: array<real> :: old(allocated(a)) && a !in old(layers[k].BackwardFrame()) ==> unchanged(a)
      ensures m.Elems() == old(m.Elems())
    {
      assert unchanged(m.data);
    }

    /**
     * Where network_backward's loop stands when layer k is next to go back: the
     * network is fine, the output layer's output holds seed, the layers from k on
     * hold what their backward passes leave, and those before k hold none but the
     * arrays H0.
     */
    ghost predicate BackState(k: nat, seed: Grid, shapes: seq<(nat, nat)>, H0: set<array<real>>, lm: Libm)
      reads `layers, `layerCount, `optimizer, layers, optimizer, HeldBy(layers)
    {
      && Valid() && OptimizerFine() && Lawful(lm) && HasOutputs() && Shapes() == shapes
      && k <= |layers| && 0 < |layers| && SeedHeld(seed)
      && IsShape(seed, shapes[|shapes| - 1].0, shapes[|shapes| - 1].1)
      && (forall j :: 0 <= j < k ==> layers[j].Arrays() <= H0)
      && DoneFrom(k, seed, shapes, lm)
    }

    /** The layers from k on hold what their backward passes leave. */
    ghost predicate DoneFrom(k: nat, seed: Grid, shapes: seq<(nat, nat)>, lm: Libm)
      reads `layers, `layerCount, `optimizer, layers, HeldBy(layers)
    {
      forall j :: k <= j < |layers| ==> (HeldHas(layers, j); DoneAt(j, seed, shapes, lm))
    }

    /**
     * After layer k alone ran backward, the network is as fine as before, keeps its
     * shapes and its seed, and the layers before k still hold none but H0.
     */
    twostate lemma BackKept(new k: nat, new seed: Grid, new shapes: seq<(nat, nat)>, new H0: set<array<real>>, new lm: Libm)
      requires old(allocated(H0)) && old(allocated(seed)) && old(allocated(shapes)) && old(allocated(lm))
      requires old(BackState(k + 1, seed, shapes, H0, lm) && k < |layers| && layers[k].Arrays() <= H0)
      requires old(layers[|layers| - 1].output.data !in layers[k].BackwardFrame())
      requires unchanged(this) && (optimizer != null ==> unchanged(optimizer))
      requires forall j :: 0 <= j < |layers| && j != k ==> unchanged(layers[j])
      requires forall a: array<real> :: old(allocated(a)) && a !in old(layers[k].BackwardFrame()) ==> unchanged(a)
      requires layers[k].Valid() && layers[k].output == old(layers[k].output)
      requires forall a :: a in layers[k].Arrays() ==> a in old(layers[k].Arrays()) || fresh(a)
      ensures Valid() && OptimizerFine() && HasOutputs() && Shapes() == shapes && SeedHeld(seed)
      ensures forall j :: 0 <= j < k ==> layers[j].Arrays() <= H0
    {
      BackStateOld(k, seed, shapes, H0, lm);
      ghost var o := old(layers[|layers| - 1].output);
      ChainKept(k);
      OutputsKept(k);
      ValuesKept(o, k);
    }

    /**
     * After layer k alone ran backward on a copy of prev, which held what Incoming
     * hands the layer after k, layers k and after hold what their backward passes
     * leave.
     */
    twostate lemma BackDone(new k: nat, new prev: Matrix, new seed: Grid, new shapes: seq<(nat, nat)>,
                            new H0: set<array<real>>, new lm: Libm)
      requires old(allocated(prev)) && old(allocated(H0)) && old(allocated(seed)) && old(allocated(shapes)) && old(allocated(lm))
      requires old(BackState(k + 1, seed, shapes, H0, lm) && k < |layers|)
      requires old(prev.Valid() && prev.Elems() == Incoming(seed, shapes, k + 1))
      requires old(forall j :: 0 <= j < |layers| && j != k ==> layers[j].Arrays() !! layers[k].BackwardFrame())
      requires old(forall j :: 0 <= j < |layers| ==> allocated(layers[j].Arrays()))
      requires unchanged(this)
      requires forall j :: 0 <= j < |layers| && j != k ==> unchanged(layers[j])
      requires forall a: array<real> :: old(allocated(a)) && a !in old(layers[k].BackwardFrame()) ==> unchanged(a)
      requires layers[k].Valid() && layers[k].output == old(layers[k].output)
      requires layers[k].BackwardDone(Handed(old(prev.Elems()), layers[k].output.rows, layers[k].output.cols), lm)
      ensures forall j :: k <= j < |layers| ==> DoneAt(j, seed, shapes, lm)
    {
      BackStateOld(k, seed, shapes, H0, lm);
      forall j | k < j < |layers| ensures DoneAt(j, seed, shapes, lm) {
        assert old(DoneAt(j, seed, shapes, lm));
        assert forall a :: a in layers[j].Arrays() ==> unchanged(a);
      }
      DoneHere(k, seed, shapes, lm, old(prev.Elems()));
    }

    /** Layer k is done once it ran backward on what Incoming hands it, g handed on from the layer after it. */
    lemma DoneHere(k: nat, seed: Grid, shapes: seq<(nat, nat)>, lm: Libm, g: Grid)
      requires k < |layers| == |shapes| && Lawful(lm) && layers[k].Valid() && layers[k].output != null
      requires shapes[k] == (layers[k].output.rows, layers[k].output.cols)
      requires IsShape(seed, shapes[|shapes| - 1].0, shapes[|shapes| - 1].1)
      requires g == Incoming(seed, shapes, k + 1)
      requires layers[k].BackwardDone(Handed(g, layers[k].output.rows, layers[k].output.cols), lm)
      ensures DoneAt(k, seed, shapes, lm)
    {
    }

    /** What BackState held of the chain before a step. */
    twostate lemma BackStateOld(new k: nat, new seed: Grid, new shapes: seq<(nat, nat)>, new H0: set<array<real>>, new lm: Libm)
      requires old(allocated(H0)) && old(allocated(seed)) && old(allocated(shapes)) && old(allocated(lm))
      requires old(BackState(k + 1, seed, shapes, H0, lm) && k < |layers| && layers[k].Arrays() <= H0)
      ensures old(Valid() && OptimizerFine() && Lawful(lm) && HasOutputs() && Shapes() == shapes && SeedHeld(seed))
      ensures IsShape(seed, shapes[|shapes| - 1].0, shapes[|shapes| - 1].1)
      ensures old(forall j :: 0 <= j <= k ==> layers[j].Arrays() <= H0)
      ensures old(forall j :: k < j < |layers| ==> DoneAt(j, seed, shapes, lm))
    {
    }

    /** BackState gathers what holds of the chain when layer k is next to go back. */
    lemma BackStateIntro(k: nat, seed: Grid, shapes: seq<(nat, nat)>, H0: set<array<real>>, lm: Libm)
      requires Valid() && OptimizerFine() && Lawful(lm) && HasOutputs() && Shapes() == shapes && SeedHeld(seed)
      requires k <= |layers| && IsShape(seed, shapes[|shapes| - 1].0, shapes[|shapes| - 1].1)
      requires forall j :: 0 <= j < k ==> layers[j].Arrays() <= H0
      requires forall j :: k <= j < |layers| ==> DoneAt(j, seed, shapes, lm)
      ensures BackState(k, seed, shapes, H0, lm)
    {
    }

    /**
     * One round of network_backward's loop for layer k: prev holds what Incoming
     * hands the layer after k, and the returned gradient what it hands layer k.
     */
    method BackStep(k: nat, prev: Matrix, ghost seed: Grid, ghost shapes: seq<(nat, nat)>, ghost H0: set<array<real>>, lm: Libm)
      returns (grad: Matrix)
      requires BackState(k + 1, seed, shapes, H0, lm) && k < |layers| && layers[k].Arrays() <= H0
      requires prev.Valid() && prev.Elems() == Incoming(seed, shapes, k + 1)
      modifies layers[k], H0
      ensures BackState(k, seed, shapes, H0, lm)
      ensures grad.Valid() && grad.Elems() == Incoming(seed, shapes, k)
      ensures unchanged(this) && Stages() == old(Stages()) && Memos() == old(Memos())
    {
      BackwardApart(k);
      grad := BackMemo(k, prev, lm);
      BackKept(k, seed, shapes, H0, lm);
      StagesAfterBack(k);
      BackDone(k, prev, seed, shapes, H0, lm);
      BackStateIntro(k, seed, shapes, H0, lm);
    }

    /**
     * BackState, with grad holding what Incoming hands layer k, every layer
     * computing the stage S0 gives it and remembering M0.
     */
    ghost predicate BackRound(k: nat, grad: Matrix, seed: Grid, shapes: seq<(nat, nat)>, H0: set<array<real>>, lm: Libm,
                              S0: seq<Stage>, M0: seq<Memo>)
      reads `layers, `layerCount, `optimizer, layers, optimizer, HeldBy(layers), ParamArrays(layers), CachesOf(layers), grad.data
    {
      && BackState(k, seed, shapes, H0, lm)
      && grad.Valid() && grad.Elems() == Incoming(seed, shapes, k)
      && Stages() == S0 && Memos() == M0
    }

    /** What BackRound holds. */
    lemma BackRoundOpen(k: nat, grad: Matrix, seed: Grid, shapes: seq<(nat, nat)>, H0: set<array<real>>, lm: Libm,
                        S0: seq<Stage>, M0: seq<Memo>)
      requires BackRound(k, grad, seed, shapes, H0, lm, S0, M0)
      ensures BackState(k, seed, shapes, H0, lm) && Valid() && Stages() == S0 && Memos() == M0
      ensures grad.Valid() && grad.Elems() == Incoming(seed, shapes, k)
    {
    }

    /** BackRound gathers BackState, the gradient in hand, the stages and the caches. */
    lemma BackRoundIntro(k: nat, grad: Matrix, seed: Grid, shapes: seq<(nat, nat)>, H0: set<array<real>>, lm: Libm,
                         S0: seq<Stage>, M0: seq<Memo>)
      requires BackState(k, seed, shapes, H0, lm) && Valid() && Stages() == S0 && Memos() == M0
      requires grad.Valid() && grad.Elems() == Incoming(seed, shapes, k)
      ensures BackRound(k, grad, seed, shapes, H0, lm, S0, M0)
    {
    }

    /**
     * The output layer's part of network_backward before its round: the output
     * becomes output − target, subtracting a copy of target.
     */
    method SubtractTarget(target: Matrix)
      requires Valid() && OptimizerFine() && HasOutputs() && 0 < |layers| && target.Valid()
      requires target.rows == OutputLayer().output.rows && target.cols == OutputLayer().output.cols
      modifies OutputLayer().output.data
      ensures Valid() && OptimizerFine() && HasOutputs() && Shapes() == old(Shapes())
      ensures OutputLayer().output.Elems() == ZipGrid(old(OutputLayer().output.Elems()), old(target.Elems()), Minus)
      ensures unchanged(this) && HeldBy(layers) == old(HeldBy(layers)) && Stages() == old(Stages())
      ensures Memos() == old(Memos())
    {
      OthersApart(layers, |layers| - 1);
      OutputNotMemoed();
      ghost var written := ArrayOf(OutputLayer().output);
      SubtractCopy(OutputLayer().output, target);
      OutputWritten(written);
    }

    /** A write to the output layer's output alone leaves every stage and every memo as it was. */
    twostate lemma OutputWritten(new written: set<array<real>>)
      requires old(Valid()) && old(HasOutputs()) && 0 < |layers| && unchanged(this)
      requires old(forall j :: 0 <= j < |layers| ==> OutputLayer().output.data !in layers[j].MemoArrays())
      requires forall j :: 0 <= j < |layers| ==> unchanged(layers[j])
      requires written == old(ArrayOf(OutputLayer().output))
      requires forall a: array<real> :: old(allocated(a)) && a !in written ==> unchanged(a)
      ensures Valid() && Shapes() == old(Shapes()) && Stages() == old(Stages()) && Memos() == old(Memos())
    {
      StagesAfterOutput();
      assert forall j :: 0 <= j < |layers| ==> Shapes()[j] == old(Shapes())[j];
      var o := old(OutputLayer().output.data);
      assert written == {o};
      forall j | 0 <= j < |layers| ensures old(layers[j].Valid()) && unchanged(layers[j].MemoArrays()) {
        assert old(layers[j].Valid() && o !in layers[j].MemoArrays());
        assert layers[j].MemoArrays() == old(layers[j].MemoArrays());
        forall a | a in layers[j].MemoArrays() ensures unchanged(a) {
          assert old(allocated(a)) && a !in written;
        }
      }
      MemosEach(layers);
    }

    /** The output layer's output is none of the arrays any layer remembers by. */
    lemma OutputNotMemoed()
      requires Valid() && HasOutputs() && 0 < |layers|
      ensures forall j :: 0 <= j < |layers| ==> OutputLayer().output.data !in layers[j].MemoArrays()
    {
      var n := |layers| - 1;
      OthersApart(layers, n);
      layers[n].OutputNotMemo();
      forall j | 0 <= j < n ensures layers[n].output.data !in layers[j].MemoArrays() {
        assert layers[n].output.data in layers[n].Arrays();
      }
    }

    /** A write to the output layer's forward buffers alone leaves every stage as it was. */
    twostate lemma StagesAfterOutput()
      requires old(Valid()) && old(HasOutputs()) && 0 < |layers| && unchanged(this)
      requires forall j :: 0 <= j < |layers| ==> unchanged(layers[j])
      requires forall a: array<real> :: old(allocated(a)) && a !in old(OutputLayer().ForwardFrame()) ==> unchanged(a)
      ensures Valid() && Stages() == old(Stages())
    {
      FineKept(layers);
      var out := OutputLayer();
      assert old(out.Valid());
      out.ParamsOutsideForward();
      out.SnapshotKept();
      SnapshotsAfterStep(layers, |layers| - 1);
      StagesKept(layers);
    }

    /**
     * network_backward: the output layer's output becomes output − target; then, from
     * the output layer down to the input layer, each layer runs backward on a fresh
     * matrix of its own output's shape holding a copy of the output (for the output
     * layer) or of the gradient the layer after it got (zeros when the shapes
     * differ, since the copy then writes nothing).  Nothing happens for an empty
     * chain.
     */
    method Backward(target: Matrix, lm: Libm)
      requires Valid() && OptimizerFine() && Lawful(lm) && HasOutputs() && target.Valid()
      requires 0 < |layers| ==> target.rows == OutputLayer().output.rows && target.cols == OutputLayer().output.cols
      modifies layers, HeldBy(layers)
      ensures Valid() && OptimizerFine() && HasOutputs() && Shapes() == old(Shapes())
      ensures 0 < |layers| ==>
        && OutputLayer().output.Elems() == ZipGrid(old(OutputLayer().output.Elems()), old(target.Elems()), Minus)
        && forall j :: 0 <= j < |layers| ==> DoneAt(j, OutputLayer().output.Elems(), Shapes(), lm)
      ensures unchanged(this) && Stages() == old(Stages()) && Memos() == old(Memos())
    {
      if |layers| == 0 {
        return;
      }
      HeldHas(layers, |layers| - 1);
      ghost var M0 := Memos();
      SubtractTarget(target);
      assert Memos() == M0;
      BackChain(lm);
    }

    /** The loop of network_backward, from the output layer's output as it stands. */
    method BackChain(lm: Libm)
      requires Valid() && OptimizerFine() && Lawful(lm) && HasOutputs() && 0 < |layers|
      modifies layers, HeldBy(layers)
      ensures Valid() && OptimizerFine() && HasOutputs() && Shapes() == old(Shapes())
      ensures OutputLayer().output.Elems() == old(OutputLayer().output.Elems())
      ensures forall j :: 0 <= j < |layers| ==> DoneAt(j, OutputLayer().output.Elems(), Shapes(), lm)
      ensures unchanged(this) && Stages() == old(Stages()) && Memos() == old(Memos())
    {
      ghost var shapes := Shapes();
      ghost var H0 := HeldBy(layers);
      var grad := OutputLayer().output;
      ghost var seed := grad.Elems();
      forall j | 0 <= j < |layers| ensures layers[j].Arrays() <= H0 {
        HeldHas(layers, j);
      }
      ghost var S0, M0 := Stages(), Memos();
      BackStateIntro(|layers|, seed, shapes, H0, lm);
      BackRoundIntro(|layers|, grad, seed, shapes, H0, lm, S0, M0);
      grad := BackThrough(grad, seed, shapes, H0, lm, S0, M0);
      BackRoundOpen(0, grad, seed, shapes, H0, lm, S0, M0);
      BackStateDone(seed, shapes, H0, lm);
    }

    /** When the loop is over, the output layer's output still holds seed and every layer is done. */
    lemma BackStateDone(seed: Grid, shapes: seq<(nat, nat)>, H0: set<array<real>>, lm: Libm)
      requires BackState(0, seed, shapes, H0, lm)
      ensures Valid() && OptimizerFine() && HasOutputs() && Shapes() == shapes && 0 < |layers|
      ensures OutputLayer().output.Elems() == seed
      ensures forall j :: 0 <= j < |layers| ==> DoneAt(j, seed, shapes, lm)
    {
    }

    /** Runs the backward passes from the last layer to the first, handing each layer's gradient on. */
    method BackThrough(last: Matrix, ghost seed: Grid, ghost shapes: seq<(nat, nat)>, ghost H0: set<array<real>>,
                       lm: Libm, ghost S0: seq<Stage>, ghost M0: seq<Memo>)
      returns (grad: Matrix)
      requires BackRound(|layers|, last, seed, shapes, H0, lm, S0, M0)
      modifies layers, H0
      ensures BackRound(0, grad, seed, shapes, H0, lm, S0, M0)
      ensures unchanged(this)
    {
      grad := last;
      var k: nat := |layers|;
      while k > 0
        invariant k <= |layers| && BackRound(k, grad, seed, shapes, H0, lm, S0, M0)
        invariant unchanged(this)
      {
        k := k - 1;
        BackRoundOpen(k + 1, grad, seed, shapes, H0, lm, S0, M0);
        assert layers[k].Arrays() <= H0;
        grad := BackStep(k, grad, seed, shapes, H0, lm);
        BackRoundIntro(k, grad, seed, shapes, H0, lm, S0, M0);
      }
    }

    /** The arrays of the optimizer's moment buffers, none without an optimizer. */
    ghost function MomentArrays(): set<array<real>>
      reads `optimizer, optimizer
    {
      if optimizer == null then {} else (set x | x in optimizer.m :: x.data) + (set x | x in optimizer.v :: x.data)
    }

    /**
     * After network_compile, no array the optimizer's update writes is a cache of a
     * layer: the update leaves every layer's input copy, output and gradient cache
     * as they were.
     */
    lemma UpdateApart()
      requires Valid() && OptimizerFine() && Compiled()
      ensures forall a :: a in CachesOf(layers) ==> allocated(a) && a !in optimizer.Arrays()
    {
      var opt := optimizer;
      forall a | a in CachesOf(layers) ensures allocated(a) && a !in opt.Arrays() {
        var i :| 0 <= i < |layers| && a in layers[i].Caches();
        if a in opt.Arrays() {
          var x :| x in opt.Slots() && x.data == a;
          CachedApart(x, i);
        }
      }
    }

    /** A bound matrix's array is not a cache of layer i. */
    lemma CachedApart(x: Matrix, i: nat)
      requires Valid() && OptimizerFine() && Compiled() && i < |layers| && x in optimizer.Slots()
      ensures x.data !in layers[i].Caches()
    {
      var opt := optimizer;
      if x in opt.m || x in opt.v {
        MomentNotCached(x, i);
      } else {
        var k :| 0 <= k < |opt.params| && (x == opt.params[k] || x == opt.grads[k]);
        BoundNotCached(x, i, k);
      }
    }

    /** A moment buffer of the optimizer is no layer's cache. */
    lemma MomentNotCached(x: Matrix, i: nat)
      requires Valid() && OptimizerFine() && optimizer != null && i < |layers|
      requires x in optimizer.m || x in optimizer.v
      ensures x.data !in layers[i].Caches()
    {
      assert layers[i].Valid();
      assert Foreign(x.data);
    }

    /** Bound parameter k, or its gradient, is no layer's cache. */
    lemma BoundNotCached(x: Matrix, i: nat, k: nat)
      requires Valid() && Compiled() && i < |layers| && k < |optimizer.params|
      requires x == optimizer.params[k] || x == optimizer.grads[k]
      ensures x.data !in layers[i].Caches()
    {
      assert layers[i].Valid();
      var j, w := ParamAt(layers, k);
      assert x.data in layers[j].Params();
      if i == j {
        layers[i].ParamsNotCached();
      } else if i < j {
        assert LayerApart(layers[i], layers[j]);
      } else {
        assert LayerApart(layers[j], layers[i]);
      }
    }

    /**
     * Entry k of es holds, as its gradient, what the backward pass of a chain seeded
     * with seed computes for the parameter gs[k] is the gradient of: the weight or
     * the bias gradient of a dense layer that has run forward, from the gradient
     * Incoming hands that layer.
     */
    ghost predicate GradsFrom(gs: seq<Matrix>, es: seq<Entry>, seed: Grid, lm: Libm)
      reads `layers, `layerCount, `optimizer, layers, CachesOf(layers)
      requires Valid() && HasOutputs() && Lawful(lm) && 0 < |layers|
      requires IsShape(seed, OutputLayer().output.rows, OutputLayer().output.cols)
    {
      forall k, j :: 0 <= k < |gs| && k < |es| && 0 <= j < |layers| && layers[j].kind == Dense && layers[j].input != null ==>
        (CachesHas(layers, j);
         && (gs[k] == layers[j].gradWeights ==> es[k].grad == layers[j].WeightGradient(Incoming(seed, Shapes(), j), lm))
         && (gs[k] == layers[j].gradBiases ==> es[k].grad == layers[j].BiasGradient(Incoming(seed, Shapes(), j), lm)))
    }

    /**
     * Once every layer is done, the bound entries of a compiled network hold, as their
     * gradients, what the backward pass computed.
     */
    lemma GradsDone(seed: Grid, lm: Libm)
      requires Valid() && OptimizerFine() && HasOutputs() && Lawful(lm) && 0 < |layers| && Compiled()
      requires IsShape(seed, OutputLayer().output.rows, OutputLayer().output.cols)
      requires forall j :: 0 <= j < |layers| ==> DoneAt(j, seed, Shapes(), lm)
      ensures GradsFrom(optimizer.grads, optimizer.EntriesTo(optimizer.paramCount), seed, lm)
    {
      var es := optimizer.EntriesTo(optimizer.paramCount);
      forall k, j | 0 <= k < |optimizer.grads| && k < |es| && 0 <= j < |layers| && layers[j].kind == Dense && layers[j].input != null
        ensures optimizer.grads[k] == layers[j].gradWeights ==> es[k].grad == layers[j].WeightGradient(Incoming(seed, Shapes(), j), lm)
        ensures optimizer.grads[k] == layers[j].gradBiases ==> es[k].grad == layers[j].BiasGradient(Incoming(seed, Shapes(), j), lm)
      {
        assert DoneAt(j, seed, Shapes(), lm);
        assert es[k] == optimizer.EntryAt(k);
      }
    }

    /**
     * A compiled network whose layers kept their stages and whose optimizer kept its
     * moment buffers is still compiled, and every bound entry differs from what it was
     * at most in its gradient.
     */
    twostate lemma EntriesKept()
      requires old(Valid()) && old(OptimizerFine()) && old(Compiled())
      requires Valid() && OptimizerFine() && unchanged(this) && unchanged(optimizer)
      requires Stages() == old(Stages()) && unchanged(MomentArrays())
      ensures Compiled()
      ensures SameButGrads(optimizer.EntriesTo(optimizer.paramCount), old(optimizer.EntriesTo(optimizer.paramCount)))
    {
      forall k | 0 <= k < optimizer.paramCount
        ensures optimizer.EntryAt(k) == old(optimizer.EntryAt(k)).(grad := optimizer.EntryAt(k).grad)
      {
        ParamKept(k);
        MomentsKept(k);
      }
    }

    /** Under the same conditions, bound parameter k keeps its values. */
    twostate lemma ParamKept(new k: nat)
      requires old(Valid()) && old(OptimizerFine()) && old(Compiled()) && unchanged(this)
      requires unchanged(optimizer) && k < optimizer.paramCount && Valid() && Stages() == old(Stages())
      ensures optimizer.Valid() && optimizer.params[k].Elems() == old(optimizer.params[k].Elems())
    {
      AllPaired();
      var j, w := ParamAt(layers, k);
      assert layers[j].Snapshot() == old(layers[j].Snapshot());
      assert layers[j].Valid() && layers[j].kind == Dense;
    }

    /** Bound moment buffers k keep their values while the moment arrays are unchanged. */
    twostate lemma MomentsKept(new k: nat)
      requires old(optimizer != null && optimizer.Valid()) && unchanged(this) && unchanged(optimizer)
      requires k < optimizer.paramCount && unchanged(MomentArrays())
      ensures optimizer.m[k].Elems() == old(optimizer.m[k].Elems()) && optimizer.v[k].Elems() == old(optimizer.v[k].Elems())
    {
      assert optimizer.m[k] in optimizer.m && optimizer.v[k] in optimizer.v;
    }

    /**
     * An update that wrote none but the optimizer's arrays, none of them a cache,
     * leaves a compiled network compiled, and its output and what GradsFrom says of
     * es as they were.
     */
    twostate lemma AfterUpdate(new es: seq<Entry>, new lm: Libm)
      requires old(Valid() && OptimizerFine() && HasOutputs() && Lawful(lm) && 0 < |layers| && Compiled())
      requires old(forall a :: a in CachesOf(layers) ==> allocated(a) && a !in optimizer.Arrays())
      requires old(OutputLayer().output.data in CachesOf(layers))
      requires unchanged(this) && forall j :: 0 <= j < |layers| ==> unchanged(layers[j])
      requires optimizer.params == old(optimizer.params) && optimizer.grads == old(optimizer.grads)
      requires forall a: array<real> :: old(allocated(a)) && a !in old(optimizer.Arrays()) ==> unchanged(a)
      ensures Valid() && HasOutputs() && Compiled()
      ensures OutputLayer().output.Elems() == old(OutputLayer().output.Elems())
      ensures old(GradsFrom(optimizer.grads, es, OutputLayer().output.Elems(), lm)) ==>
        GradsFrom(optimizer.grads, es, OutputLayer().output.Elems(), lm)
    {
      CompiledKept();
      CachesUnchanged();
      if old(GradsFrom(optimizer.grads, es, OutputLayer().output.Elems(), lm)) {
        GradsKept(optimizer.grads, es, OutputLayer().output.Elems(), lm);
      }
    }

    /** The update, which writes no cache, leaves what every layer remembers as it was. */
    twostate lemma MemosAfterUpdate()
      requires old(Valid() && OptimizerFine() && Compiled()) && Valid()
      requires old(forall a :: a in CachesOf(layers) ==> allocated(a) && a !in optimizer.Arrays())
      requires unchanged(this) && forall j :: 0 <= j < |layers| ==> unchanged(layers[j])
      requires forall a: array<real> :: old(allocated(a)) && a !in old(optimizer.Arrays()) ==> unchanged(a)
      ensures Memos() == old(Memos())
    {
      CachesUnchanged();
      forall j | 0 <= j < |layers| ensures old(layers[j].Valid()) && layers[j].Valid() {
        assert old(layers[j].Valid());
      }
      assert CachesOf(layers) == old(CachesOf(layers));
      MemosKept(layers);
    }

    /** A step that changed no layer and kept the bound lists keeps a compiled network compiled. */
    twostate lemma CompiledKept()
      requires old(Valid() && HasOutputs() && Compiled())
      requires unchanged(this) && forall j :: 0 <= j < |layers| ==> unchanged(layers[j])
      requires optimizer.params == old(optimizer.params) && optimizer.grads == old(optimizer.grads)
      ensures Valid() && HasOutputs() && Compiled()
    {
      FineKept(layers);
      assert ParamsOf(layers) == old(ParamsOf(layers)) && GradsOf(layers) == old(GradsOf(layers));
    }

    /** Setting the network's own flag changes neither the layers' outputs, nor what GradsFrom says, nor what any layer remembers. */
    twostate lemma CachesKept()
      requires old(Valid()) && Valid()
      requires layers == old(layers) && layerCount == old(layerCount) && optimizer == old(optimizer)
      requires forall j :: 0 <= j < |layers| ==> unchanged(layers[j])
      requires forall j, a :: 0 <= j < |layers| && a in old(layers[j].Caches()) ==> unchanged(a)
      ensures Memos() == old(Memos())
    {
      forall a | a in old(CachesOf(layers)) ensures unchanged(a) {
        var j :| 0 <= j < |layers| && a in layers[j].Caches();
      }
      MemosKept(layers);
    }

    twostate lemma FlagKept(new before: seq<Entry>, new lm: Libm, new S0: seq<Stage>)
      requires old(Valid() && HasOutputs() && Lawful(lm)) && Valid()
      requires layers == old(layers) && layerCount == old(layerCount) && optimizer == old(optimizer)
      requires forall j :: 0 <= j < |layers| ==> unchanged(layers[j])
      requires forall j, a :: 0 <= j < |layers| && a in old(layers[j].Caches()) ==> unchanged(a)
      requires optimizer != null ==> unchanged(optimizer)
      ensures HasOutputs()
      ensures 0 < |layers| ==> OutputLayer().output.Elems() == old(OutputLayer().output.Elems())
      ensures 0 < |layers| && optimizer != null && old(GradsFrom(optimizer.grads, before, OutputLayer().output.Elems(), lm)) ==>
        GradsFrom(optimizer.grads, before, OutputLayer().output.Elems(), lm)
      ensures Memos() == old(Memos())
      ensures old(SettledAs(S0)) ==> SettledAs(S0)
    {
      forall a | a in CachesOf(layers) ensures unchanged(a) {
        var j :| 0 <= j < |layers| && a in layers[j].Caches();
      }
      if 0 < |layers| {
        assert OutputLayer().output.data in layers[|layers| - 1].Caches();
      }
      CachesKept();
      if 0 < |layers| && optimizer != null && old(GradsFrom(optimizer.grads, before, OutputLayer().output.Elems(), lm)) {
        GradsKept(old(optimizer.grads), before, old(OutputLayer().output.Elems()), lm);
      }
    }

    /** GradsFrom depends on nothing but the chain and its cache arrays. */
    twostate lemma GradsKept(new gs: seq<Matrix>, new es: seq<Entry>, new seed: Grid, new lm: Libm)
      requires old(Valid() && HasOutputs() && Lawful(lm) && 0 < |layers|)
      requires old(IsShape(seed, OutputLayer().output.rows, OutputLayer().output.cols))
      requires old(allocated(gs)) && old(GradsFrom(gs, es, seed, lm))
      requires layers == old(layers) && layerCount == old(layerCount) && optimizer == old(optimizer)
      requires forall j :: 0 <= j < |layers| ==> unchanged(layers[j])
      requires Valid() && HasOutputs()
      requires forall a :: a in CachesOf(layers) ==> unchanged(a)
      ensures GradsFrom(gs, es, seed, lm)
    {
      assert CachesOf(layers) == old(CachesOf(layers));
    }

    /** The same frame, stated of the cache arrays one by one. */
    twostate lemma CachesUnchanged()
      requires old(Valid() && OptimizerFine() && optimizer != null)
      requires old(forall a :: a in CachesOf(layers) ==> allocated(a) && a !in optimizer.Arrays())
      requires unchanged(this) && forall j :: 0 <= j < |layers| ==> unchanged(layers[j])
      requires forall a: array<real> :: old(allocated(a)) && a !in old(optimizer.Arrays()) ==> unchanged(a)
      ensures forall a :: a in CachesOf(layers) ==> unchanged(a)
    {
      assert CachesOf(layers) == old(CachesOf(layers));
    }

    /** A pass that wrote no array outside the layers' wrote no moment buffer. */
    twostate lemma MomentsUnwritten()
      requires old(optimizer != null && optimizer.Valid()) && unchanged(this) && unchanged(optimizer)
      requires old(MomentArrays() !! HeldBy(layers))
      requires forall a: array<real> :: old(allocated(a)) && a !in old(HeldBy(layers)) ==> unchanged(a)
      ensures unchanged(MomentArrays())
    {
    }

    /** An optimizer whose moment buffers kept their values keeps them nonnegative. */
    twostate lemma NonNegKept()
      requires old(optimizer != null && optimizer.Valid() && optimizer.MomentsNonNeg())
      requires unchanged(this) && unchanged(optimizer) && unchanged(MomentArrays())
      ensures optimizer.Valid() && optimizer.MomentsNonNeg()
    {
      forall i | 0 <= i < |optimizer.v| ensures unchanged(optimizer.v[i].data) {
        assert optimizer.v[i] in optimizer.v;
      }
      AllNonNegKept(optimizer.v);
    }

    /** The moment buffers of the optimizer lie outside what the layers hold. */
    lemma MomentsOutside()
      requires OptimizerFine() && optimizer != null
      ensures forall k :: 0 <= k < |optimizer.v| ==> optimizer.v[k].data !in HeldBy(layers)
      ensures MomentArrays() !! HeldBy(layers)
    {
      forall a | a in MomentArrays() ensures a !in HeldBy(layers) {
        var x :| x in optimizer.m + optimizer.v && x.data == a;
        assert Foreign(a);
        ForeignNotHeld(a);
      }
    }

    /**
     * network_update: the optimizer's update when there is one, otherwise nothing.
     * The chain itself keeps its layers and their bindings.
     */
    method Update(lm: Libm)
      requires Valid() && OptimizerFine() && Lawful(lm)
      requires optimizer != null ==> optimizer.MomentsNonNeg() && optimizer.InRange()
      modifies optimizer, if optimizer != null then optimizer.Arrays() else {}
      ensures Valid() && OptimizerFine()
      ensures optimizer != null ==> optimizer.MomentsNonNeg() && optimizer.t == old(optimizer.t) + 1
      ensures optimizer != null ==> forall k :: 0 <= k < optimizer.paramCount ==>
        optimizer.grads[k].Elems() == Zeros(optimizer.grads[k].rows, optimizer.grads[k].cols)
      ensures optimizer != null ==> optimizer.paramCount == old(optimizer.paramCount)
      ensures optimizer != null ==> optimizer.params == old(optimizer.params) && optimizer.grads == old(optimizer.grads)
      ensures optimizer != null ==> forall k :: 0 <= k < optimizer.paramCount ==>
        optimizer.EntryAt(k) == optimizer.RuleStep(old(optimizer.EntryAt(k)), optimizer.t, lm)
      ensures old(Compiled()) ==> Memos() == old(Memos())
    {
      if optimizer != null {
        ghost var compiled := Compiled();
        if compiled {
          UpdateApart();
        }
        label updating:
        optimizer.Update(lm);
        if compiled {
          MemosAfterUpdate@updating();
        }
      }
    }

    /** Sets the network's own training flag, which no pass reads; the chain stays as it was. */
    method SetMode(b: bool)
      requires Valid() && OptimizerFine()
      modifies `isTraining
      ensures layers == old(layers) && optimizer == old(optimizer)
      ensures forall j :: 0 <= j < |layers| ==> unchanged(layers[j])
      ensures forall j, a :: 0 <= j < |layers| && a in old(layers[j].Caches()) ==> unchanged(a)
      ensures isTraining == b && Valid() && OptimizerFine() && Stages() == old(Stages())
      ensures optimizer != null ==> unchanged(optimizer) && unchanged(optimizer.Arrays())
      ensures optimizer != null ==> optimizer.Valid() && optimizer.EntriesTo(optimizer.paramCount) == old(optimizer.EntriesTo(optimizer.paramCount))
      ensures Compiled() == old(Compiled())
    {
      isTraining := b;
    }

    /**
     * network_test: with training switched off, the forward pass and the
     * cross-entropy of its output against target.
     */
    method Test(x: Matrix, target: Matrix, draws: seq<seq<real>>, lm: Libm) returns (loss: real)
      requires Valid() && OptimizerFine() && Lawful(lm)
      requires x.Valid() && x.stride == x.cols && Foreign(x.data) && x.rows > 0
      requires ChainFits(Stages(), x.rows, x.cols, draws) && Takes(x.rows, x.cols)
      requires target.Valid() && Foreign(target.data) && target.stride == target.cols
      requires target.rows == x.rows && target.cols == ColsTo(Stages(), x.cols, |layers|)
      modifies this`isTraining, layers, HeldBy(layers)
      ensures !isTraining && Valid() && Stages() == old(Stages())
      ensures loss == ChainLoss(old(Stages()), old(x.Elems()), old(target.Elems()), x.rows, x.cols, draws, lm)
      ensures MemosFrom(Memos(), old(Stages()), old(x.Elems()), x.rows, x.cols, draws, lm)
    {
      // No pass reads the network's own flag (each layer keeps one), so setting it
      // after the pass rather than before is not observable.
      loss := Evaluate(x, target, draws, lm);
      label evaluated:
      SetMode(false);
      CachesKept@evaluated();
    }

    /**
     * The forward pass and cross_entropy_loss of its output against target, shared by
     * network_train and network_test.  The optimizer's moment buffers keep their values.
     */
    method Evaluate(x: Matrix, target: Matrix, draws: seq<seq<real>>, lm: Libm) returns (loss: real)
      requires Valid() && OptimizerFine() && Lawful(lm)
      requires x.Valid() && x.stride == x.cols && Foreign(x.data) && x.rows > 0
      requires ChainFits(Stages(), x.rows, x.cols, draws) && Takes(x.rows, x.cols)
      requires target.Valid() && Foreign(target.data) && target.stride == target.cols
      requires target.rows == x.rows && target.cols == ColsTo(Stages(), x.cols, |layers|)
      modifies layers, HeldBy(layers)
      ensures unchanged(this) && (optimizer != null ==> unchanged(optimizer))
      ensures unchanged(MomentArrays())
      ensures forall j, a :: 0 <= j < |layers| && a in layers[j].Arrays() ==> a in old(HeldBy(layers)) || fresh(a)
      ensures unchanged(target.data) && target.Elems() == old(target.Elems())
      ensures Valid() && OptimizerFine() && HasOutputs() && Stages() == old(Stages())
      ensures 0 < |layers| ==> OutputLayer().output.rows == target.rows && OutputLayer().output.cols == target.cols
      ensures old(optimizer) != null && old(optimizer.MomentsNonNeg()) ==> optimizer.MomentsNonNeg()
      ensures 0 < |layers| ==> OutputLayer().output.Elems() == Run(old(Stages()), old(x.Elems()), x.rows, x.cols, draws, lm, |layers|)
      ensures MemosFrom(Memos(), old(Stages()), old(x.Elems()), x.rows, x.cols, draws, lm)
      ensures loss == ChainLoss(old(Stages()), old(x.Elems()), old(target.Elems()), x.rows, x.cols, draws, lm)
    {
      ForeignNotHeld(target.data);
      ghost var sts, x0, t0 := Stages(), x.Elems(), target.Elems();
      var out := ForwardKeeping(x, draws, lm);
      assert unchanged(target.data);
      assert out.Elems() == Run(sts, x0, x.rows, x.cols, draws, lm, |sts|) && target.Elems() == t0;
      loss := Loss(out, target, lm);
    }

    /** network_forward, which leaves the optimizer's moment buffers as they were. */
    method ForwardKeeping(x: Matrix, draws: seq<seq<real>>, lm: Libm) returns (out: Matrix)
      requires Valid() && OptimizerFine() && Lawful(lm)
      requires x.Valid() && x.stride == x.cols && Foreign(x.data)
      requires ChainFits(Stages(), x.rows, x.cols, draws) && Takes(x.rows, x.cols)
      modifies layers, HeldBy(layers)
      ensures Valid() && OptimizerFine() && HasOutputs() && Stages() == old(Stages())
      ensures unchanged(this) && (optimizer != null ==> unchanged(optimizer))
      ensures Owned(out) && out.rows == x.rows && out.cols == ColsTo(old(Stages()), x.cols, |layers|)
      ensures out.Elems() == Run(old(Stages()), old(x.Elems()), x.rows, x.cols, draws, lm, |layers|)
      ensures OutputLayer() != null && x.rows > 0 ==> OutputLayer().output.rows == out.rows && OutputLayer().output.cols == out.cols
      ensures OutputLayer() != null ==> OutputLayer().output.Elems() == out.Elems()
      ensures MemosFrom(Memos(), old(Stages()), old(x.Elems()), x.rows, x.cols, draws, lm)
      ensures old(optimizer) != null && old(optimizer.MomentsNonNeg()) ==> optimizer.MomentsNonNeg()
      ensures unchanged(MomentArrays())
      ensures forall j, a :: 0 <= j < |layers| && a in layers[j].Arrays() ==> a in old(HeldBy(layers)) || fresh(a)
    {
      if optimizer != null {
        MomentsOutside();
      }
      label before:
      out := Forward(x, draws, lm);
      if OutputLayer() != null && x.rows > 0 {
        ghost var o := OutputLayer().output;
        assert |o.Elems()[0]| == o.cols && |out.Elems()[0]| == out.cols;
      }
      if optimizer != null {
        MomentsUnwritten();
        if old(optimizer.MomentsNonNeg()) {
          AllNonNegKept@before(optimizer.v);
        }
      }
    }

    /**
     * cross_entropy_loss of the network's fresh output copy against target, which
     * leaves the network as it was.
     */
    method Loss(out: Matrix, target: Matrix, lm: Libm) returns (loss: real)
      requires Owned(out) && target.Valid() && out.rows > 0 && target.stride == target.cols
      requires target.rows == out.rows && target.cols == out.cols
      requires Valid() && OptimizerFine() && HasOutputs()
      ensures loss == SumAll(CrossEntropyTerms(out.Elems(), target.Elems(), lm)) / (out.rows as real)
      ensures Valid() && OptimizerFine() && HasOutputs() && Stages() == old(Stages())
      ensures forall j :: 0 <= j < |layers| ==> layers[j].Arrays() == old(layers[j].Arrays())
      ensures 0 < |layers| ==> OutputLayer().output == old(OutputLayer().output)
      ensures 0 < |layers| ==> OutputLayer().output.Elems() == old(OutputLayer().output.Elems())
      ensures old(optimizer) != null && old(optimizer.MomentsNonNeg()) ==> optimizer.MomentsNonNeg()
      ensures unchanged(MomentArrays())
      ensures forall j, a :: 0 <= j < |layers| && a in layers[j].Arrays() ==> a in old(layers[j].Arrays())
      ensures Memos() == old(Memos())
    {
      loss := CrossEntropyLoss(out, target, lm);
    }

    /**
     * network_train: with training switched on, the forward pass, the loss of its
     * output, the backward pass from target and the optimizer's update.  The loss is
     * that of the output before any update, and every bound entry then is one step of
     * the optimizer's rule from the entry `before` the update, which holds the
     * gradient the backward pass left.
     */
    method Train(x: Matrix, target: Matrix, draws: seq<seq<real>>, lm: Libm) returns (loss: real, ghost before: seq<Entry>)
      requires Valid() && OptimizerFine() && Lawful(lm)
      requires optimizer != null ==> optimizer.MomentsNonNeg() && optimizer.InRange()
      requires x.Valid() && x.stride == x.cols && Foreign(x.data) && x.rows > 0
      requires ChainFits(Stages(), x.rows, x.cols, draws) && Takes(x.rows, x.cols)
      requires target.Valid() && Foreign(target.data) && target.stride == target.cols
      requires target.rows == x.rows && target.cols == ColsTo(Stages(), x.cols, |layers|)
      modifies this`isTraining, layers, HeldBy(layers), optimizer, if optimizer != null then optimizer.Arrays() else {}
      ensures isTraining && Valid() && OptimizerFine() && HasOutputs() && SettledAs(old(Stages()))
      ensures loss == ChainLoss(old(Stages()), old(x.Elems()), old(target.Elems()), x.rows, x.cols, draws, lm)
      ensures optimizer != null ==> optimizer.t == old(optimizer.t) + 1
      ensures optimizer != null ==> optimizer.SteppedFrom(before, lm)
      ensures old(Compiled()) ==> Compiled() && SameButGrads(before, old(optimizer.EntriesTo(optimizer.paramCount)))
      ensures old(Compiled()) ==> MemosFrom(Memos(), old(Stages()), old(x.Elems()), x.rows, x.cols, draws, lm)
      ensures old(Compiled()) && 0 < |layers| ==>
        && OutputLayer().output.Elems() == ChainResidual(old(Stages()), old(x.Elems()), old(target.Elems()), x.rows, x.cols, draws, lm)
        && GradsFrom(optimizer.grads, before, OutputLayer().output.Elems(), lm)
    {
      loss, before := Passes(x, target, draws, lm);
      label passed:
      // No pass reads the network's own flag (each layer keeps one), so setting it
      // after the passes rather than before is not observable.
      SetMode(true);
      FlagKept@passed(before, lm, old(Stages()));
    }

    /**
     * The passes of network_train, which leave the network's own training flag as it
     * was: the forward pass, the loss of its output, the backward pass from target
     * and the optimizer's update.
     */
    method Passes(x: Matrix, target: Matrix, draws: seq<seq<real>>, lm: Libm) returns (loss: real, ghost before: seq<Entry>)
      requires Valid() && OptimizerFine() && Lawful(lm)
      requires optimizer != null ==> optimizer.MomentsNonNeg() && optimizer.InRange()
      requires x.Valid() && x.stride == x.cols && Foreign(x.data) && x.rows > 0
      requires ChainFits(Stages(), x.rows, x.cols, draws) && Takes(x.rows, x.cols)
      requires target.Valid() && Foreign(target.data) && target.stride == target.cols
      requires target.rows == x.rows && target.cols == ColsTo(Stages(), x.cols, |layers|)
      modifies layers, HeldBy(layers), optimizer, if optimizer != null then optimizer.Arrays() else {}
      ensures unchanged(this) && Valid() && OptimizerFine() && HasOutputs() && |layers| == |old(Stages())|
      ensures loss == ChainLoss(old(Stages()), old(x.Elems()), old(target.Elems()), x.rows, x.cols, draws, lm)
      ensures optimizer != null ==> optimizer.t == old(optimizer.t) + 1
      ensures optimizer != null ==> optimizer.SteppedFrom(before, lm)
      ensures old(Compiled()) ==> Compiled() && SameButGrads(before, old(optimizer.EntriesTo(optimizer.paramCount)))
      ensures old(Compiled()) ==> MemosFrom(Memos(), old(Stages()), old(x.Elems()), x.rows, x.cols, draws, lm)
      ensures SettledAs(old(Stages()))
      ensures old(Compiled()) && 0 < |layers| ==>
        && OutputLayer().output.Elems() == ChainResidual(old(Stages()), old(x.Elems()), old(target.Elems()), x.rows, x.cols, draws, lm)
        && GradsFrom(optimizer.grads, before, OutputLayer().output.Elems(), lm)
    {
      ghost var compiled, sts, x0, t0 := Compiled(), Stages(), x.Elems(), target.Elems();
      loss := Evaluate(x, target, draws, lm);
      ghost var mid: seq<Entry> := [];
      ghost var out0: Grid := [];
      if compiled {
        EntriesKept();
        mid := optimizer.EntriesTo(optimizer.paramCount);
        if 0 < |layers| {
          out0 := OutputLayer().output.Elems();
          assert out0 == Run(sts, x0, x.rows, x.cols, draws, lm, |sts|);
          assert target.Elems() == t0;
        }
      }
      before := Learn(target, lm);
      if compiled {
        SameButGradsTrans(before, mid, old(optimizer.EntriesTo(optimizer.paramCount)));
        if 0 < |layers| {
          assert OutputLayer().output.Elems() == ChainResidual(sts, x0, t0, x.rows, x.cols, draws, lm);
        }
      }
    }

    /**
     * The backward pass from target and the update, the second half of network_train:
     * every bound entry becomes one step of the optimizer's rule from its entry in
     * `before`.  In a compiled network, `before` is the entries as they were but for
     * the gradients, which hold what the backward pass seeded with output − target
     * computed; the output then holds output − target.
     */
    method Learn(target: Matrix, lm: Libm) returns (ghost before: seq<Entry>)
      requires Valid() && OptimizerFine() && Lawful(lm) && HasOutputs() && target.Valid()
      requires 0 < |layers| ==> target.rows == OutputLayer().output.rows && target.cols == OutputLayer().output.cols
      requires optimizer != null ==> optimizer.MomentsNonNeg() && optimizer.InRange()
      modifies layers, HeldBy(layers), optimizer, if optimizer != null then optimizer.Arrays() else {}
      ensures Valid() && OptimizerFine() && HasOutputs() && unchanged(this)
      ensures optimizer != null ==> optimizer.t == old(optimizer.t) + 1
      ensures optimizer != null ==> optimizer.paramCount == old(optimizer.paramCount)
      ensures optimizer != null ==> optimizer.SteppedFrom(before, lm)
      ensures old(Compiled()) ==> Compiled() && SameButGrads(before, old(optimizer.EntriesTo(optimizer.paramCount)))
      ensures SettledAs(old(Stages()))
      ensures old(Compiled()) ==> Memos() == old(Memos())
      ensures old(Compiled()) && 0 < |layers| ==>
        && OutputLayer().output.Elems() == ZipGrid(old(OutputLayer().output.Elems()), old(target.Elems()), Minus)
        && GradsFrom(optimizer.grads, before, OutputLayer().output.Elems(), lm)
    {
      ghost var compiled := Compiled();
      BackwardKeeping(target, lm);
      if compiled {
        EntriesKept();
        if 0 < |layers| {
          GradsDone(OutputLayer().output.Elems(), lm);
        }
      }
      before := StepKeeping(lm);
    }

    /**
     * network_update, which writes none of the layers' caches: a compiled network
     * stays compiled, and its output and what GradsFrom says of the entries as they
     * were stay as they were.
     */
    method StepKeeping(lm: Libm) returns (ghost before: seq<Entry>)
      requires Valid() && OptimizerFine() && Lawful(lm) && HasOutputs()
      requires optimizer != null ==> optimizer.MomentsNonNeg() && optimizer.InRange()
      modifies optimizer, if optimizer != null then optimizer.Arrays() else {}
      ensures Valid() && OptimizerFine() && HasOutputs() && unchanged(this)
      ensures optimizer != null ==> optimizer.t == old(optimizer.t) + 1
      ensures optimizer != null ==> optimizer.paramCount == old(optimizer.paramCount)
      ensures optimizer != null ==> before == old(optimizer.EntriesTo(optimizer.paramCount))
      ensures optimizer != null ==> optimizer.SteppedFrom(before, lm)
      ensures SettledAs(old(Stages()))
      ensures old(Compiled()) ==> Compiled() && Memos() == old(Memos())
      ensures old(Compiled()) && 0 < |layers| ==>
        && OutputLayer().output.Elems() == old(OutputLayer().output.Elems())
        && (old(GradsFrom(optimizer.grads, optimizer.EntriesTo(optimizer.paramCount), OutputLayer().output.Elems(), lm)) ==>
              GradsFrom(optimizer.grads, before, OutputLayer().output.Elems(), lm))
    {
      ghost var compiled := Compiled();
      if compiled && 0 < |layers| {
        UpdateApart();
        CachesHas(layers, |layers| - 1);
      }
      before := Step(lm);
      if compiled && 0 < |layers| {
        AfterUpdate(before, lm);
      }
    }

    /**
     * network_update: `before` is the bound entries as they were, and every bound
     * entry becomes one step of the optimizer's rule from its entry in `before`.
     */
    method Step(lm: Libm) returns (ghost before: seq<Entry>)
      requires Valid() && OptimizerFine() && Lawful(lm)
      requires optimizer != null ==> optimizer.MomentsNonNeg() && optimizer.InRange()
      modifies optimizer, if optimizer != null then optimizer.Arrays() else {}
      ensures Valid() && OptimizerFine() && unchanged(this)
      ensures forall j :: 0 <= j < |layers| ==> unchanged(layers[j])
      ensures optimizer != null ==> forall a: array<real> :: old(allocated(a)) && a !in old(optimizer.Arrays()) ==> unchanged(a)
      ensures optimizer != null ==> optimizer.t == old(optimizer.t) + 1
      ensures optimizer != null ==> optimizer.paramCount == old(optimizer.paramCount)
      ensures optimizer != null ==> optimizer.params == old(optimizer.params) && optimizer.grads == old(optimizer.grads)
      ensures optimizer != null ==> before == old(optimizer.EntriesTo(optimizer.paramCount))
      ensures optimizer != null ==> optimizer.SteppedFrom(before, lm)
      ensures old(Compiled()) ==> Memos() == old(Memos())
    {
      before := [];
      if optimizer != null {
        optimizer.EntriesOfMoments();
        before := optimizer.EntriesTo(optimizer.paramCount);
      }
      Update(lm);
      if optimizer != null {
        optimizer.SteppedFromEach(before, lm);
      }
    }

    /** network_backward, which leaves the optimizer's moment buffers as they were. */
    method BackwardKeeping(target: Matrix, lm: Libm)
      requires Valid() && OptimizerFine() && Lawful(lm) && HasOutputs() && target.Valid()
      requires 0 < |layers| ==> target.rows == OutputLayer().output.rows && target.cols == OutputLayer().output.cols
      modifies layers, HeldBy(layers)
      ensures unchanged(this) && (optimizer != null ==> unchanged(optimizer))
      ensures unchanged(MomentArrays())
      ensures Valid() && OptimizerFine() && HasOutputs() && Shapes() == old(Shapes()) && Stages() == old(Stages())
      ensures Memos() == old(Memos())
      ensures 0 < |layers| ==>
        && OutputLayer().output.Elems() == ZipGrid(old(OutputLayer().output.Elems()), old(target.Elems()), Minus)
        && forall j :: 0 <= j < |layers| ==> DoneAt(j, OutputLayer().output.Elems(), Shapes(), lm)
      ensures old(optimizer) != null && old(optimizer.MomentsNonNeg()) ==> optimizer.MomentsNonNeg()
    {
      ghost var moments := MomentArrays();
      if optimizer != null {
        MomentsOutside();
      }
      assert moments !! HeldBy(layers);
      Backward(target, lm);
      assert unchanged(moments);
      if optimizer != null && old(optimizer.MomentsNonNeg()) {
        NonNegKept();
      }
    }

    /**
     * network_free: every layer's free function in chain order, then the optimizer's.
     * Every array the layers hold is released exactly once, and the optimizer
     * releases only its own moment buffers, none of them a layer's.
     */
    method Free() returns (released: seq<array<real>>, moments: seq<Matrix>)
      requires Valid() && OptimizerFine()
      ensures released == FreedBy(layers) && Distinct(released)
      ensures optimizer == null ==> moments == []
      ensures optimizer != null ==> forall x :: x in moments ==> x in optimizer.m || x in optimizer.v
      ensures forall x :: x in moments ==> x.data !in released
    {
      released := FreeLayers();
      moments := FreeOptimizer(released);
    }

    /**
     * The end of network_free: the optimizer's free function, if there is one, after
     * the layers released the arrays in released.
     */
    method FreeOptimizer(released: seq<array<real>>) returns (moments: seq<Matrix>)
      requires OptimizerFine() && forall a :: a in released ==> a in HeldBy(layers)
      ensures optimizer == null ==> moments == []
      ensures optimizer != null ==> forall x :: x in moments ==> x in optimizer.m || x in optimizer.v
      ensures forall x :: x in moments ==> x.data !in released
    {
      moments := [];
      if optimizer != null {
        moments := optimizer.Free();
        MomentsReleasedApart(moments, released);
      }
    }

    /** The optimizer's moment buffers are not among the arrays the layers released. */
    lemma MomentsReleasedApart(moments: seq<Matrix>, released: seq<array<real>>)
      requires OptimizerFine() && optimizer != null
      requires forall x :: x in moments ==> x in optimizer.m || x in optimizer.v
      requires forall a :: a in released ==> a in HeldBy(layers)
      ensures forall x :: x in moments ==> x.data !in released
    {
      forall x | x in moments ensures x.data !in released {
        assert Foreign(x.data);
        ForeignNotHeld(x.data);
      }
    }

    /** The layer loop of network_free: each layer's free function, input layer first. */
    method FreeLayers() returns (released: seq<array<real>>)
      requires Valid()
      ensures released == FreedBy(layers) && Distinct(released)
      ensures forall a :: a in released <==> a in HeldBy(layers)
    {
      released := [];
      var i := 0;
      while i < |layers|
        invariant 0 <= i <= |layers|
        invariant released == FreedBy(layers[..i])
      {
        assert layers[i].Valid();
        var r := layers[i].Free();
        released := released + r;
        assert layers[..i + 1][..i] == layers[..i];
        i := i + 1;
      }
      assert layers[..i] == layers;
      FreedOnce(layers);
    }
  }
}
