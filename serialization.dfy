/**
 * The model format of src/serialization.c.  A file is the sequence of values the
 * C code hands to fwrite, one field per value; network_serialize writes a header
 * and one record per layer, network_deserialize reads them back through a cursor
 * with the checks the C code makes, and a checkpoint adds a second file holding
 * the optimizer's settings.  Opening, closing and naming the files is not part of
 * the model.
 */
module Serialization {
  import opened Grids
  import opened Matrices
  import opened Layers
  import opened Optimizers
  import opened Networks

  /** One value passed to fwrite: a uint32_t, an int, a size_t, a float or a char. */
  datatype Field = U32(n: nat) | I32(i: int) | Size(n: nat) | F32(r: real) | Char(c: char)

  datatype Option<T> = None | Some(value: T)

  /** NN_MAGIC, the characters "NNL1". */
  const Magic: nat := 0x4E4E4C31

  /** NN_VERSION. */
  const Version: nat := 1

  /**
   * What is written of one layer: a dense layer's sizes, activation, weight shape
   * and values, bias shape and values; any other layer only its type tag.
   */
  datatype Record =
    | DenseRecord(inputSize: nat, outputSize: nat, activation: int,
                  wRows: nat, wCols: nat, weights: seq<real>, bRows: nat, bCols: nat, biases: seq<real>)
    | TagRecord(tag: nat)

  /** A record as a valid layer gives it: a dense layer's parameters have its shape, a tag is not the dense tag. */
  predicate WellFormed(r: Record)
  {
    match r
    case DenseRecord(n, m, _, wr, wc, w, br, bc, b) =>
      wr == n && wc == m && br == 1 && bc == m && |w| == wr * wc && |b| == br * bc
    case TagRecord(tag) => tag != TypeTag(Dense)
  }

  // ---- Writing ----

  /** The values of a float buffer, one field each. */
  function Floats(xs: seq<real>): (fs: seq<Field>)
    ensures |fs| == |xs| && forall i :: 0 <= i < |xs| ==> fs[i] == F32(xs[i])
  {
    if |xs| == 0 then [] else Floats(xs[..|xs| - 1]) + [F32(xs[|xs| - 1])]
  }

  /**
   * The fields network_serialize writes for one layer: its type tag first; a dense
   * layer then takes the three sizes, the two shapes and its values (`DenseLayout`).
   */
  function RecordFields(r: Record): seq<Field>
  {
    match r
    case DenseRecord(n, m, a, wr, wc, w, br, bc, b) =>
      [U32(TypeTag(Dense)), I32(n), I32(m), I32(a), Size(wr), Size(wc)] + Floats(w) + [Size(br), Size(bc)] + Floats(b)
    case TagRecord(tag) => [U32(tag)]
  }

  /** The records of rs, one after the other. */
  function Body(rs: seq<Record>): seq<Field>
  {
    if |rs| == 0 then [] else Body(rs[..|rs| - 1]) + RecordFields(rs[|rs| - 1])
  }

  /** A whole file: magic, version, layer count, then the records in chain order. */
  function Encode(rs: seq<Record>): (fs: seq<Field>)
    ensures 3 <= |fs| && fs[0] == U32(Magic) && fs[1] == U32(Version) && fs[2] == U32(|rs|)
  {
    [U32(Magic), U32(Version), U32(|rs|)] + Body(rs)
  }

  /** What network_serialize writes of layer l. */
  ghost function RecordOf(l: Layer): (r: Record)
    reads l, ArrayOf(l.weights), ArrayOf(l.biases)
    requires l.Valid()
    ensures WellFormed(r)
    ensures l.kind == Dense <==> r.DenseRecord?
    ensures l.kind != Dense ==> r == TagRecord(TypeTag(l.kind))
  {
    if l.kind == Dense then
      DenseRecord(l.inputSize, l.outputSize, l.activation,
                  l.weights.rows, l.weights.cols, l.weights.Flat(),
                  l.biases.rows, l.biases.cols, l.biases.Flat())
    else
      TagRecord(TypeTag(l.kind))
  }

  /** The records of a chain of layers, in chain order. */
  ghost function RecordsOf(ls: seq<Layer>): (rs: seq<Record>)
    reads ls, ParamArrays(ls)
    requires forall i :: 0 <= i < |ls| ==> ls[i].Valid()
    ensures |rs| == |ls|
    ensures forall i :: 0 <= i < |ls| ==> rs[i] == RecordOf(ls[i])
  {
    if |ls| == 0 then []
    else
      RecordsSnoc(RecordsOf(ls[..|ls| - 1]), ls);
      RecordsOf(ls[..|ls| - 1]) + [RecordOf(ls[|ls| - 1])]
  }

  /** The records of all but the last layer, then the last layer's, are the records of all. */
  lemma RecordsSnoc(front: seq<Record>, ls: seq<Layer>)
    requires |ls| > 0 && |front| == |ls| - 1 && forall i :: 0 <= i < |ls| ==> ls[i].Valid()
    requires forall i :: 0 <= i < |front| ==> front[i] == RecordOf(ls[..|ls| - 1][i])
    ensures forall i :: 0 <= i < |ls| ==> (front + [RecordOf(ls[|ls| - 1])])[i] == RecordOf(ls[i])
  {
    assert forall i :: 0 <= i < |front| ==> ls[..|ls| - 1][i] == ls[i];
  }

  /** The switch of network_serialize for one layer: its type, then a dense layer's payload. */
  method WriteLayer(l: Layer) returns (fs: seq<Field>)
    requires l.Valid()
    ensures fs == RecordFields(RecordOf(l))
  {
    fs := [U32(TypeTag(l.kind))];
    if l.kind == Dense {
      fs := fs + [I32(l.inputSize), I32(l.outputSize), I32(l.activation)];
      fs := fs + [Size(l.weights.rows), Size(l.weights.cols)] + Floats(l.weights.Flat());
      fs := fs + [Size(l.biases.rows), Size(l.biases.cols)] + Floats(l.biases.Flat());
    }
  }

  /** network_serialize: the header, then each layer from the input layer on. */
  method Serialize(net: Network) returns (fs: seq<Field>)
    requires net.Valid()
    ensures fs == Encode(RecordsOf(net.layers))
  {
    assert forall i :: 0 <= i < |net.layers| ==> net.layers[i].Valid();
    var body := WriteLayers(net.layers);
    fs := [U32(Magic), U32(Version), U32(net.layerCount)] + body;
    RecordsKept(net.layers);
  }

  /** Writing changes nothing, so the records of the layers are what they were. */
  twostate lemma {:induction false} RecordsKept(ls: seq<Layer>)
    requires forall j :: 0 <= j < |ls| ==> old(ls[j].Valid()) && ls[j].Valid()
    requires forall j :: 0 <= j < |ls| ==> RecordOf(ls[j]) == old(RecordOf(ls[j]))
    ensures RecordsOf(ls) == old(RecordsOf(ls))
    decreases |ls|
  {
    if |ls| > 0 {
      RecordsKept(ls[..|ls| - 1]);
    }
  }

  /** The loop of network_serialize: each layer's record, in chain order. */
  method WriteLayers(ls: seq<Layer>) returns (fs: seq<Field>)
    requires forall i :: 0 <= i < |ls| ==> ls[i].Valid()
    ensures fs == Body(old(RecordsOf(ls)))
  {
    ghost var rs := RecordsOf(ls);
    fs := [];
    var k := 0;
    while k < |ls|
      invariant k <= |ls|
      invariant fs == Body(rs[..k])
    {
      var more := WriteLayer(ls[k]);
      BodyNext(rs, k);
      fs := fs + more;
      k := k + 1;
    }
    assert rs[..k] == rs;
  }

  /** One more record adds its fields at the end. */
  lemma BodyNext(rs: seq<Record>, k: nat)
    requires k < |rs|
    ensures Body(rs[..k + 1]) == Body(rs[..k]) + RecordFields(rs[k])
  {
    assert rs[..k + 1][..k] == rs[..k];
  }

  // ---- Reading ----

  /** Why network_deserialize gives no network. */
  datatype Failure =
    | BadMagic | BadVersion | WeightShape | BiasShape | UnknownType(tag: nat)
    | BadSize | Unreadable

  /** What network_deserialize gives: the dense layers it rebuilt, in order, or why it gave up. */
  datatype Outcome = Loaded(layers: seq<Record>) | Failed(why: Failure)

  /** Where one layer's reading leaves the cursor: the layer read, if any, and the fields used. */
  datatype Step = Next(layer: Option<Record>, used: nat) | Stop(why: Failure)

  /** The value a field holds as a float (0 for any other field). */
  function RealOf(f: Field): real
  {
    if f.F32? then f.r else 0.0
  }

  /** The values of the floats of fs. */
  function Reals(fs: seq<Field>): (xs: seq<real>)
    ensures |xs| == |fs| && forall i :: 0 <= i < |fs| ==> xs[i] == RealOf(fs[i])
  {
    if |fs| == 0 then [] else Reals(fs[..|fs| - 1]) + [RealOf(fs[|fs| - 1])]
  }

  /** One fread of n floats from position k finds them all. */
  predicate FloatsThere(fs: seq<Field>, k: nat, n: nat)
  {
    k + n <= |fs| && AllFloats(fs[k..k + n])
  }

  /** Every field of fs is a float. */
  predicate AllFloats(fs: seq<Field>)
  {
    forall i :: 0 <= i < |fs| ==> fs[i].F32?
  }

  /** A sequence of chars, one field each. */
  function Chars(s: string): (fs: seq<Field>)
    ensures |fs| == |s| && forall i :: 0 <= i < |s| ==> fs[i] == Char(s[i])
  {
    if |s| == 0 then [] else Chars(s[..|s| - 1]) + [Char(s[|s| - 1])]
  }

  /**
   * One round of network_deserialize's loop over fs, the rest of the file: the type
   * tag, then a dense layer's payload; CONV2D and RNN read nothing more and make no
   * layer, any other tag ends the decoding.
   */
  function ReadLayer(fs: seq<Field>): (r: Step)
    ensures r.Next? ==> 0 < r.used <= |fs|
    ensures r.Next? && r.layer.Some? ==> r.layer.value.DenseRecord? && WellFormed(r.layer.value)
    ensures r.Next? && r.layer.None? ==> fs[0] in {U32(TypeTag(Conv2d)), U32(TypeTag(Rnn))}
  {
    if |fs| == 0 || !fs[0].U32? then Stop(Unreadable)
    else if fs[0].n == TypeTag(Dense) then ReadDense(fs)
    else if fs[0].n == TypeTag(Conv2d) || fs[0].n == TypeTag(Rnn) then Next(None, 1)
    else Stop(UnknownType(fs[0].n))
  }

  /**
   * The LAYER_DENSE case: sizes and activation, then the weights, then the biases.
   * The C code reads the sizes into ints and hands them to dense_layer_create; a
   * negative size is refused here.
   */
  function ReadDense(fs: seq<Field>): (r: Step)
    ensures r.Next? ==> 0 < r.used <= |fs| && r.layer.Some? && r.layer.value.DenseRecord? && WellFormed(r.layer.value)
  {
    if |fs| < 4 || !fs[1].I32? || !fs[2].I32? || !fs[3].I32? then Stop(Unreadable)
    else if fs[1].i < 0 || fs[2].i < 0 then Stop(BadSize)
    else ReadWeights(fs, fs[1].i, fs[2].i, fs[3].i)
  }

  /** The weight shape, checked against the in × out of a fresh dense layer, then the weights. */
  function ReadWeights(fs: seq<Field>, n: nat, m: nat, a: int): (r: Step)
    ensures r.Next? ==> 6 + n * m < r.used <= |fs| && r.layer.Some?
    ensures r.Next? ==> r.layer.value.DenseRecord? && WellFormed(r.layer.value)
    ensures r.Next? ==> r.layer.value.inputSize == n && r.layer.value.outputSize == m
  {
    if |fs| < 6 || !fs[4].Size? || !fs[5].Size? then Stop(Unreadable)
    else if fs[4].n != n || fs[5].n != m then Stop(WeightShape)
    else if !FloatsThere(fs, 6, n * m) then Stop(Unreadable)
    else ReadBiases(fs, 6 + n * m, n, m, a, Reals(fs[6..6 + n * m]))
  }

  /** From position k: the bias shape, checked against 1 × out, then the biases. */
  function ReadBiases(fs: seq<Field>, k: nat, n: nat, m: nat, a: int, w: seq<real>): (r: Step)
    requires |w| == n * m
    ensures r.Next? ==> k < r.used <= |fs| && r.layer.Some?
    ensures r.Next? ==> r.layer.value.DenseRecord? && WellFormed(r.layer.value)
    ensures r.Next? ==> r.layer.value == DenseRecord(n, m, a, n, m, w, 1, m, r.layer.value.biases)
  {
    if |fs| < k + 2 || !fs[k].Size? || !fs[k + 1].Size? then Stop(Unreadable)
    else if fs[k].n != 1 || fs[k + 1].n != m then Stop(BiasShape)
    else if !FloatsThere(fs, k + 2, m) then Stop(Unreadable)
    else Next(Some(DenseRecord(n, m, a, n, m, w, 1, m, Reals(fs[k + 2..k + 2 + m]))), k + 2 + m)
  }

  /** acc in front of what an outcome loaded; a failure stays a failure. */
  function Then(acc: seq<Record>, o: Outcome): Outcome
  {
    match o
    case Loaded(ls) => Loaded(acc + ls)
    case Failed(why) => Failed(why)
  }

  /** The layer a step made, if any. */
  function Made(o: Option<Record>): seq<Record>
  {
    if o.Some? then [o.value] else []
  }

  /** The remaining count rounds of network_deserialize's loop over fs. */
  function DecodeFrom(fs: seq<Field>, count: nat): (r: Outcome)
    ensures r.Loaded? ==> |r.layers| <= count
    ensures r.Loaded? ==> forall i :: 0 <= i < |r.layers| ==> r.layers[i].DenseRecord? && WellFormed(r.layers[i])
    decreases count
  {
    if count == 0 then Loaded([])
    else
      match ReadLayer(fs)
      case Stop(why) => Failed(why)
      case Next(o, used) => Then(Made(o), DecodeFrom(fs[used..], count - 1))
  }

  /** network_deserialize: the header, checked for magic and then version, then layer_count layers. */
  function Decode(fs: seq<Field>): (r: Outcome)
    ensures r.Loaded? ==> |fs| >= 3 && fs[0] == U32(Magic) && fs[1] == U32(Version)
    ensures r.Loaded? ==> forall i :: 0 <= i < |r.layers| ==> r.layers[i].DenseRecord? && WellFormed(r.layers[i])
  {
    if |fs| < 3 || !fs[0].U32? || !fs[1].U32? || !fs[2].U32? then Failed(Unreadable)
    else if fs[0].n != Magic then Failed(BadMagic)
    else if fs[1].n != Version then Failed(BadVersion)
    else DecodeFrom(fs[3..], fs[2].n)
  }

  /** Loading nothing in front changes nothing. */
  lemma ThenNothing(o: Outcome)
    ensures Then([], o) == o
  {
    if o.Loaded? {
      assert [] + o.layers == o.layers;
    }
  }

  /** Putting a in front, then b, is putting a + b in front. */
  lemma ThenThen(a: seq<Record>, b: seq<Record>, o: Outcome)
    ensures Then(a, Then(b, o)) == Then(a + b, o)
  {
    if o.Loaded? {
      assert a + (b + o.layers) == (a + b) + o.layers;
    }
  }

  /**
   * Round i of network_deserialize's loop over count layers: the layer at pos
   * is read and joins those before it, and the cursor moves past it; or the reading
   * stops there.
   */
  method ReadAt(fs: seq<Field>, pos: nat, count: nat, i: nat, layers: seq<Record>) returns (failed: Option<Failure>, next: nat, more: seq<Record>)
    requires pos <= |fs| && i < count
    ensures next <= |fs|
    ensures failed.Some? ==> Then(layers, DecodeFrom(fs[pos..], count - i)) == Failed(failed.value)
    ensures failed.None? ==> Then(layers, DecodeFrom(fs[pos..], count - i)) == Then(more, DecodeFrom(fs[next..], count - (i + 1)))
  {
    var step := ReadLayer(fs[pos..]);
    if step.Stop? {
      failed, next, more := Some(step.why), pos, layers;
    } else {
      failed, next, more := None, pos + step.used, layers + Made(step.layer);
    }
    RoundDone(fs, pos, count, i, layers, step, failed, next, more);
  }

  /** What one round of the loop leaves, in terms of the reference reading. */
  lemma RoundDone(fs: seq<Field>, pos: nat, count: nat, i: nat, layers: seq<Record>, step: Step,
                  failed: Option<Failure>, next: nat, more: seq<Record>)
    requires pos <= |fs| && i < count && step == ReadLayer(fs[pos..])
    requires step.Stop? ==> failed == Some(step.why) && next == pos && more == layers
    requires step.Next? ==> failed == None && next == pos + step.used && more == layers + Made(step.layer)
    ensures next <= |fs|
    ensures failed.Some? ==> Then(layers, DecodeFrom(fs[pos..], count - i)) == Failed(failed.value)
    ensures failed.None? ==> Then(layers, DecodeFrom(fs[pos..], count - i)) == Then(more, DecodeFrom(fs[next..], count - (i + 1)))
  {
    if step.Stop? {
      DecodeNext(fs, pos, count, i, layers, step);
    } else {
      DecodeNext(fs, pos, count, i, layers, step);
      assert fs[next..] == fs[pos + step.used..];
    }
  }

  /**
   * One round of the loop: the reading stops where the layer at pos cannot be read;
   * otherwise that layer joins those before it and the cursor moves past it.
   */
  lemma DecodeNext(fs: seq<Field>, pos: nat, count: nat, i: nat, layers: seq<Record>, step: Step)
    requires pos <= |fs| && i < count && step == ReadLayer(fs[pos..])
    ensures step.Stop? ==> Then(layers, DecodeFrom(fs[pos..], count - i)) == Failed(step.why)
    ensures step.Next? ==> pos + step.used <= |fs|
    ensures step.Next? ==>
      Then(layers, DecodeFrom(fs[pos..], count - i)) == Then(layers + Made(step.layer), DecodeFrom(fs[pos + step.used..], count - (i + 1)))
  {
    if step.Next? {
      assert fs[pos..][step.used..] == fs[pos + step.used..];
      ThenThen(layers, Made(step.layer), DecodeFrom(fs[pos + step.used..], count - (i + 1)));
    }
  }

  /**
   * network_deserialize: the header, checked for magic and then version, then a loop
   * over layer_count layers with a cursor into the file; the first layer that cannot
   * be read ends the decoding.
   */
  method Deserialize(fs: seq<Field>) returns (r: Outcome)
    ensures r == Decode(fs)
  {
    if |fs| < 3 || !fs[0].U32? || !fs[1].U32? || !fs[2].U32? {
      return Failed(Unreadable);
    }
    var magic, version, count := fs[0].n, fs[1].n, fs[2].n;
    if magic != Magic {
      return Failed(BadMagic);
    }
    if version != Version {
      return Failed(BadVersion);
    }
    var layers: seq<Record> := [];
    var pos: nat := 3;
    var i := 0;
    ghost var goal := Decode(fs);
    ThenNothing(DecodeFrom(fs[pos..], count));
    while i < count
      invariant i <= count
      invariant pos <= |fs|
      invariant goal == Then(layers, DecodeFrom(fs[pos..], count - i))
    {
      var failed, next, more := ReadAt(fs, pos, count, i, layers);
      if failed.Some? {
        return Failed(failed.value);
      }
      layers, pos, i := more, next, i + 1;
    }
    r := Loaded(layers);
    assert layers + [] == layers;
  }

  // ---- What a written file reads back as ----

  /**
   * The reference reading of a list of records: dense records are kept, CONV2D and
   * RNN tags are passed over, and any other tag stops the reading.
   */
  function Expected(rs: seq<Record>): Outcome
  {
    if |rs| == 0 then Loaded([])
    else
      match rs[0]
      case DenseRecord(_, _, _, _, _, _, _, _, _) => Then([rs[0]], Expected(rs[1..]))
      case TagRecord(tag) =>
        if tag == TypeTag(Conv2d) || tag == TypeTag(Rnn) then Expected(rs[1..]) else Failed(UnknownType(tag))
  }

  /** Fields that hold the values of xs from position k on read back as xs. */
  lemma FloatsBack(fs: seq<Field>, k: nat, xs: seq<real>)
    requires k + |xs| <= |fs|
    requires forall i :: k <= i < k + |xs| ==> fs[i] == F32(xs[i - k])
    ensures FloatsThere(fs, k, |xs|) && Reals(fs[k..k + |xs|]) == xs
  {
    var part := fs[k..k + |xs|];
    forall j | 0 <= j < |xs| ensures part[j] == F32(xs[j]) {
      assert part[j] == fs[k + j];
    }
    assert AllFloats(part);
    assert Reals(part) == xs;
  }

  /** How the loop of network_deserialize takes one record: the tag decides, as in Expected. */
  function StepOf(r: Record): Step
  {
    match r
    case DenseRecord(_, _, _, _, _, _, _, _, _) => Next(Some(r), |RecordFields(r)|)
    case TagRecord(tag) =>
      if tag == TypeTag(Conv2d) || tag == TypeTag(Rnn) then Next(None, 1) else Stop(UnknownType(tag))
  }

  /** A well-formed record followed by anything is read as StepOf says, using exactly its own fields. */
  lemma RecordBack(r: Record, rest: seq<Field>)
    requires WellFormed(r)
    ensures ReadLayer(RecordFields(r) + rest) == StepOf(r)
  {
    if r.DenseRecord? {
      DenseBack(r, rest);
    }
  }

  /** The fields of a well-formed dense record pass every check of the LAYER_DENSE case. */
  lemma DenseBack(r: Record, rest: seq<Field>)
    requires WellFormed(r) && r.DenseRecord?
    ensures ReadDense(RecordFields(r) + rest) == Next(Some(r), |RecordFields(r)|)
  {
    DenseLayout(r, rest);
    DenseRead(RecordFields(r) + rest, r);
  }

  /** Fields laid out as network_serialize lays out a well-formed dense record read back as that record. */
  lemma DenseRead(fs: seq<Field>, r: Record)
    requires WellFormed(r) && r.DenseRecord?
    requires var k := 6 + |r.weights|;
      && k + 2 + |r.biases| <= |fs|
      && fs[1] == I32(r.inputSize) && fs[2] == I32(r.outputSize) && fs[3] == I32(r.activation)
      && fs[4] == Size(r.wRows) && fs[5] == Size(r.wCols) && fs[k] == Size(r.bRows) && fs[k + 1] == Size(r.bCols)
      && (forall i :: 6 <= i < k ==> fs[i] == F32(r.weights[i - 6]))
      && (forall i :: k + 2 <= i < k + 2 + |r.biases| ==> fs[i] == F32(r.biases[i - (k + 2)]))
    ensures ReadDense(fs) == Next(Some(r), 8 + |r.weights| + |r.biases|)
  {
    var n, m := r.inputSize, r.outputSize;
    assert r == DenseRecord(n, m, r.activation, n, m, r.weights, 1, m, r.biases);
    WeightsBack(fs, n, m, r.activation, r.weights, r.biases);
  }

  /** Where network_serialize puts each value of a dense record. */
  lemma DenseLayout(r: Record, rest: seq<Field>)
    requires WellFormed(r) && r.DenseRecord?
    ensures var fs := RecordFields(r) + rest; var k := 6 + |r.weights|;
      && |RecordFields(r)| == k + 2 + |r.biases|
      && fs[0] == U32(TypeTag(Dense)) && fs[1] == I32(r.inputSize) && fs[2] == I32(r.outputSize) && fs[3] == I32(r.activation)
      && fs[4] == Size(r.wRows) && fs[5] == Size(r.wCols) && fs[k] == Size(r.bRows) && fs[k + 1] == Size(r.bCols)
      && (forall i :: 6 <= i < k ==> fs[i] == F32(r.weights[i - 6]))
      && (forall i :: k + 2 <= i < k + 2 + |r.biases| ==> fs[i] == F32(r.biases[i - (k + 2)]))
  {
  }

  /** Weights of the right shape followed by biases of the right shape are read back as they were written. */
  lemma WeightsBack(fs: seq<Field>, n: nat, m: nat, a: int, w: seq<real>, b: seq<real>)
    requires |w| == n * m && |b| == m && 8 + |w| + |b| <= |fs|
    requires fs[1] == I32(n) && fs[2] == I32(m) && fs[3] == I32(a) && fs[4] == Size(n) && fs[5] == Size(m)
    requires forall i :: 6 <= i < 6 + |w| ==> fs[i] == F32(w[i - 6])
    requires fs[6 + |w|] == Size(1) && fs[6 + |w| + 1] == Size(m)
    requires forall i :: 6 + |w| + 2 <= i < 6 + |w| + 2 + |b| ==> fs[i] == F32(b[i - (6 + |w| + 2)])
    ensures ReadDense(fs) == Next(Some(DenseRecord(n, m, a, n, m, w, 1, m, b)), 8 + |w| + |b|)
  {
    FloatsBack(fs, 6, w);
    BiasesBack(fs, 6 + |w|, n, m, a, w, b);
  }

  /** Biases of the right shape are read back as they were written. */
  lemma BiasesBack(fs: seq<Field>, k: nat, n: nat, m: nat, a: int, w: seq<real>, b: seq<real>)
    requires |w| == n * m && |b| == m && k + 2 + |b| <= |fs|
    requires fs[k] == Size(1) && fs[k + 1] == Size(m)
    requires forall i :: k + 2 <= i < k + 2 + |b| ==> fs[i] == F32(b[i - (k + 2)])
    ensures ReadBiases(fs, k, n, m, a, w) == Next(Some(DenseRecord(n, m, a, n, m, w, 1, m, b)), k + 2 + |b|)
  {
    FloatsBack(fs, k + 2, b);
  }

  /** Body, built from the back, read from the front. */
  lemma {:induction false} BodyFront(rs: seq<Record>)
    requires |rs| > 0
    ensures Body(rs) == RecordFields(rs[0]) + Body(rs[1..])
    decreases |rs|
  {
    if |rs| > 1 {
      BodyFront(rs[..|rs| - 1]);
      assert rs[..|rs| - 1][1..] == rs[1..][..|rs[1..]| - 1];
    }
  }

  /** Concatenation of field sequences is associative. */
  lemma FieldsAssoc(a: seq<Field>, b: seq<Field>, c: seq<Field>)
    ensures (a + b) + c == a + (b + c)
  {
  }

  /** The records of a body, followed by anything, read back as the reference reading says. */
  lemma {:induction false} BodyBack(rs: seq<Record>, rest: seq<Field>)
    requires forall i :: 0 <= i < |rs| ==> WellFormed(rs[i])
    ensures DecodeFrom(Body(rs) + rest, |rs|) == Expected(rs)
    decreases |rs|
  {
    if |rs| > 0 {
      var tail := Body(rs[1..]) + rest;
      BodyBack(rs[1..], rest);
      RecordBack(rs[0], tail);
      FirstRecord(rs[0], tail, |rs|, Expected(rs[1..]));
      ExpectedFirst(rs);
      BodyFront(rs);
      FieldsAssoc(RecordFields(rs[0]), Body(rs[1..]), rest);
    }
  }

  /** Expected takes the first record as ExpectedStep says. */
  lemma ExpectedFirst(rs: seq<Record>)
    requires |rs| > 0 && WellFormed(rs[0])
    ensures Expected(rs) == ExpectedStep(rs[0], Expected(rs[1..]))
  {
  }

  /** Expected, one record at a time. */
  function ExpectedStep(r: Record, later: Outcome): Outcome
  {
    match StepOf(r)
    case Stop(why) => Failed(why)
    case Next(o, _) => Then(Made(o), later)
  }

  /** The loop takes the first record as StepOf says, and goes on with what follows it. */
  lemma FirstRecord(r: Record, tail: seq<Field>, count: nat, later: Outcome)
    requires WellFormed(r) && count > 0 && ReadLayer(RecordFields(r) + tail) == StepOf(r)
    requires DecodeFrom(tail, count - 1) == later
    ensures DecodeFrom(RecordFields(r) + tail, count) == ExpectedStep(r, later)
  {
    var fs := RecordFields(r) + tail;
    if StepOf(r).Next? {
      assert fs[StepOf(r).used..] == tail;
    }
  }

  /** network_deserialize reads what network_serialize wrote as the reference reading of its records. */
  lemma RoundTrip(rs: seq<Record>)
    requires forall i :: 0 <= i < |rs| ==> WellFormed(rs[i])
    ensures Decode(Encode(rs)) == Expected(rs)
  {
    var fs := Encode(rs);
    assert fs[3..] == Body(rs) + [];
    BodyBack(rs, []);
  }

  /** Records that are all dense are read back unchanged. */
  lemma {:induction false} ExpectedDense(rs: seq<Record>)
    requires forall i :: 0 <= i < |rs| ==> rs[i].DenseRecord?
    ensures Expected(rs) == Loaded(rs)
    decreases |rs|
  {
    if |rs| > 0 {
      ExpectedDense(rs[1..]);
      assert [rs[0]] + rs[1..] == rs;
    }
  }

  /**
   * Among records of dense and dropout layers, the first dropout record stops the
   * reading: its type tag is not one network_deserialize knows.
   */
  lemma {:induction false} ExpectedDropout(rs: seq<Record>)
    requires forall i :: 0 <= i < |rs| ==> rs[i].DenseRecord? || rs[i] == TagRecord(TypeTag(Dropout))
    ensures Expected(rs).Failed? <==> TagRecord(TypeTag(Dropout)) in rs
    ensures Expected(rs).Failed? ==> Expected(rs) == Failed(UnknownType(TypeTag(Dropout)))
    decreases |rs|
  {
    if |rs| > 0 {
      ExpectedDropout(rs[1..]);
      assert rs == [rs[0]] + rs[1..];
    }
  }

  // ---- Networks written and read back ----

  /** A dense layer's record holds its sizes, its activation and its parameters in row-major order. */
  lemma RecordHoldsLayer(l: Layer)
    requires l.Valid() && l.kind == Dense
    ensures var r := RecordOf(l);
      && r.inputSize == l.inputSize && r.outputSize == l.outputSize && r.activation == l.activation
      && r.weights == Flatten(l.weights.Elems()) && r.biases == Flatten(l.biases.Elems())
  {
    OwnedLayout(l.weights);
    FlattenFromFlat(l.weights.data[..], l.weights.rows, l.weights.cols);
    OwnedLayout(l.biases);
    FlattenFromFlat(l.biases.data[..], l.biases.rows, l.biases.cols);
  }

  /**
   * network_load reads what network_save wrote of a network of dense layers as that
   * network: as many layers, each with the sizes, activation, weights and biases it had.
   */
  lemma NetworkRoundTrip(net: Network)
    requires net.Valid()
    requires forall i :: 0 <= i < |net.layers| ==> net.layers[i].kind == Dense
    ensures var o := Decode(Encode(RecordsOf(net.layers)));
      && o.Loaded? && |o.layers| == |net.layers|
      && forall i :: 0 <= i < |net.layers| ==>
           && o.layers[i].inputSize == net.layers[i].inputSize
           && o.layers[i].outputSize == net.layers[i].outputSize
           && o.layers[i].activation == net.layers[i].activation
           && o.layers[i].weights == Flatten(net.layers[i].weights.Elems())
           && o.layers[i].biases == Flatten(net.layers[i].biases.Elems())
  {
    assert forall i :: 0 <= i < |net.layers| ==> net.layers[i].Valid();
    var rs := RecordsOf(net.layers);
    RoundTrip(rs);
    ExpectedDense(rs);
    forall i | 0 <= i < |net.layers|
      ensures rs[i].inputSize == net.layers[i].inputSize && rs[i].outputSize == net.layers[i].outputSize
      ensures rs[i].activation == net.layers[i].activation
      ensures rs[i].weights == Flatten(net.layers[i].weights.Elems()) && rs[i].biases == Flatten(net.layers[i].biases.Elems())
    {
      RecordHoldsLayer(net.layers[i]);
    }
  }

  /**
   * network_save writes a dropout layer as its type tag alone, and network_load refuses
   * that tag: what network_save wrote of a network fails to load exactly when the
   * network has a dropout layer.
   */
  lemma DropoutNotLoadable(net: Network)
    requires net.Valid()
    ensures var o := Decode(Encode(RecordsOf(net.layers)));
      && (o.Failed? <==> exists i :: 0 <= i < |net.layers| && net.layers[i].kind == Dropout)
      && (o.Failed? ==> o.why == UnknownType(TypeTag(Dropout)))
  {
    assert forall i :: 0 <= i < |net.layers| ==> net.layers[i].Valid();
    DropoutRecords(net.layers);
    RoundTrip(RecordsOf(net.layers));
    ExpectedDropout(RecordsOf(net.layers));
  }

  /** The records of valid layers are dense records and dropout tags, a dropout tag for each dropout layer. */
  lemma DropoutRecords(ls: seq<Layer>)
    requires forall i :: 0 <= i < |ls| ==> ls[i].Valid()
    ensures var rs := RecordsOf(ls);
      && (forall i :: 0 <= i < |rs| ==> WellFormed(rs[i]) && (rs[i].DenseRecord? || rs[i] == TagRecord(TypeTag(Dropout))))
      && (TagRecord(TypeTag(Dropout)) in rs <==> exists i :: 0 <= i < |ls| && ls[i].kind == Dropout)
  {
    var rs := RecordsOf(ls);
    if exists i :: 0 <= i < |ls| && ls[i].kind == Dropout {
      var i :| 0 <= i < |ls| && ls[i].kind == Dropout;
      assert rs[i] == TagRecord(TypeTag(Dropout));
    }
    if TagRecord(TypeTag(Dropout)) in rs {
      var i :| 0 <= i < |rs| && rs[i] == TagRecord(TypeTag(Dropout));
      assert ls[i].kind == Dropout;
    }
  }

  // ---- Checkpoints ----

  /** The C string a char buffer holds: everything before its first NUL. */
  function CName(s: string): (c: string)
    ensures c <= s && '\0' !in c
    ensures |c| < |s| ==> s[|c|] == '\0'
  {
    if |s| == 0 || s[0] == '\0' then [] else [s[0]] + CName(s[1..])
  }

  /**
   * The optimizer file of save_checkpoint: the length of the name as strlen counts it,
   * that many characters, the learning rate, β1, β2, ε and the step count.
   */
  function OptimizerFields(opt: Optimizer): (fs: seq<Field>)
    reads opt
    ensures |fs| == 6 + |CName(opt.name)| && fs[0] == U32(|CName(opt.name)|)
    ensures Text(fs[1..1 + |CName(opt.name)|]) == CName(opt.name)
  {
    [U32(|CName(opt.name)|)] + Chars(CName(opt.name))
    + [F32(opt.learningRate), F32(opt.beta1), F32(opt.beta2), F32(opt.epsilon), I32(opt.t)]
  }

  /** save_checkpoint: the network's file as network_serialize writes it, and the optimizer's file. */
  method SaveCheckpoint(net: Network, opt: Optimizer) returns (netFile: seq<Field>, optFile: seq<Field>)
    requires net.Valid()
    ensures netFile == Encode(RecordsOf(net.layers))
    ensures optFile == OptimizerFields(opt)
  {
    netFile := Serialize(net);
    optFile := OptimizerFields(opt);
  }

  /** What load_checkpoint rebuilds from an optimizer file: Adam's settings, SGD's, or nothing for any other name. */
  datatype Restored =
    | AdamState(learningRate: real, beta1: real, beta2: real, epsilon: real, t: nat)
    | SgdState(learningRate: real, momentum: real)
    | OtherName

  /** The character a field holds (NUL for any other field). */
  function CharOf(f: Field): char
  {
    if f.Char? then f.c else '\0'
  }

  /** The characters of fs. */
  function Text(fs: seq<Field>): (s: string)
    ensures |s| == |fs| && forall i :: 0 <= i < |fs| ==> s[i] == CharOf(fs[i])
  {
    if |fs| == 0 then [] else Text(fs[..|fs| - 1]) + [CharOf(fs[|fs| - 1])]
  }

  /** Every field of fs is a character. */
  predicate AllChars(fs: seq<Field>)
  {
    forall i :: 0 <= i < |fs| ==> fs[i].Char?
  }

  /**
   * The optimizer part of load_checkpoint: the name, read into a 64-char buffer, then
   * for "adam" four floats and the step count, for "sgd" the learning rate and the
   * momentum; any other name reads nothing more.  A file that is too short, a name
   * that does not fit the buffer or a negative step count is not readable.
   */
  function ReadOptimizer(fs: seq<Field>): (r: Option<Restored>)
    ensures r.Some? ==> 0 < |fs| && fs[0].U32? && fs[0].n < 64 && 1 + fs[0].n <= |fs|
    ensures r.Some? && r.value.AdamState? ==> 6 + fs[0].n <= |fs| && CName(Text(fs[1..1 + fs[0].n])) == "adam"
    ensures r.Some? && r.value.SgdState? ==> 3 + fs[0].n <= |fs| && CName(Text(fs[1..1 + fs[0].n])) == "sgd"
  {
    if |fs| == 0 || !fs[0].U32? || fs[0].n >= 64 || |fs| < 1 + fs[0].n || !AllChars(fs[1..1 + fs[0].n]) then None
    else
      var name := CName(Text(fs[1..1 + fs[0].n]));
      var k := 1 + fs[0].n;
      if name == "adam" then
        if |fs| < k + 5 || !fs[k].F32? || !fs[k + 1].F32? || !fs[k + 2].F32? || !fs[k + 3].F32?
           || !fs[k + 4].I32? || fs[k + 4].i < 0 then None
        else Some(AdamState(fs[k].r, fs[k + 1].r, fs[k + 2].r, fs[k + 3].r, fs[k + 4].i))
      else if name == "sgd" then
        if |fs| < k + 2 || !fs[k].F32? || !fs[k + 1].F32? then None
        else Some(SgdState(fs[k].r, fs[k + 1].r))
      else Some(OtherName)
  }

  /**
   * opt is what load_checkpoint leaves in *opt after reading r: a new Adam optimizer
   * with the saved settings and step count, a new SGD optimizer with the saved learning
   * rate and momentum, and otherwise the optimizer the caller had.
   */
  ghost predicate Restores(r: Option<Restored>, prior: Optimizer?, opt: Optimizer?)
    reads opt
  {
    match r
    case Some(AdamState(lr, b1, b2, eps, t)) =>
      && opt != null && opt.rule == AdamRule && opt.name == "adam" && opt.Valid() && opt.paramCount == 0
      && opt.learningRate == lr && opt.beta1 == b1 && opt.beta2 == b2 && opt.epsilon == eps && opt.t == t
    case Some(SgdState(lr, momentum)) =>
      && opt != null && opt.rule == SgdRule && opt.name == "sgd" && opt.Valid() && opt.paramCount == 0
      && opt.learningRate == lr && opt.beta1 == momentum && opt.t == 0
    case _ => opt == prior
  }

  /** The optimizer part of load_checkpoint, starting from the caller's optimizer prior. */
  method LoadOptimizer(fs: seq<Field>, prior: Optimizer?) returns (opt: Optimizer?)
    ensures Restores(ReadOptimizer(fs), prior, opt)
    ensures opt != prior ==> fresh(opt)
  {
    var r := ReadOptimizer(fs);
    if r.Some? && r.value.AdamState? {
      var o := new Optimizer.Adam(r.value.learningRate, r.value.beta1, r.value.beta2, r.value.epsilon);
      o.t := r.value.t;
      opt := o;
    } else if r.Some? && r.value.SgdState? {
      opt := new Optimizer.Sgd(r.value.learningRate, r.value.momentum);
    } else {
      opt := prior;
    }
  }

  /**
   * load_checkpoint: the network's file is read first; when it does not load, the
   * optimizer stays the caller's, and otherwise the optimizer's file is read.
   */
  method LoadCheckpoint(netFile: seq<Field>, optFile: seq<Field>, prior: Optimizer?) returns (net: Outcome, opt: Optimizer?)
    ensures net == Decode(netFile)
    ensures net.Failed? ==> opt == prior
    ensures net.Loaded? ==> Restores(ReadOptimizer(optFile), prior, opt)
    ensures opt != prior ==> fresh(opt)
  {
    net := Deserialize(netFile);
    if net.Failed? {
      return net, prior;
    }
    opt := LoadOptimizer(optFile, prior);
  }

  /** A name without NUL is its own C string. */
  lemma {:induction false} CNamePlain(s: string)
    requires '\0' !in s
    ensures CName(s) == s
    decreases |s|
  {
    if |s| > 0 {
      CNamePlain(s[1..]);
      assert s == [s[0]] + s[1..];
    }
  }

  /** The name load_checkpoint reads back from an optimizer file is the C string of the saved name. */
  lemma NameBack(opt: Optimizer)
    requires |CName(opt.name)| < 64
    ensures var fs := OptimizerFields(opt); var n := |CName(opt.name)|;
      && fs[0] == U32(n) && |fs| == n + 6 && AllChars(fs[1..1 + n])
      && CName(Text(fs[1..1 + n])) == CName(opt.name)
      && fs[1 + n] == F32(opt.learningRate) && fs[2 + n] == F32(opt.beta1)
      && fs[3 + n] == F32(opt.beta2) && fs[4 + n] == F32(opt.epsilon) && fs[5 + n] == I32(opt.t)
  {
    var c := CName(opt.name);
    var fs := OptimizerFields(opt);
    assert fs[1..1 + |c|] == Chars(c);
    assert Text(Chars(c)) == c;
    CNamePlain(c);
  }

  /** An Adam checkpoint restores the learning rate, both decay rates, ε and the step count. */
  lemma AdamCheckpoint(opt: Optimizer)
    requires opt.name == "adam"
    ensures ReadOptimizer(OptimizerFields(opt)) == Some(AdamState(opt.learningRate, opt.beta1, opt.beta2, opt.epsilon, opt.t))
  {
    CNamePlain(opt.name);
    NameBack(opt);
  }

  /** An SGD checkpoint restores the learning rate and the momentum, which sgd_optimizer keeps in beta1. */
  lemma SgdCheckpoint(opt: Optimizer)
    requires opt.name == "sgd"
    ensures ReadOptimizer(OptimizerFields(opt)) == Some(SgdState(opt.learningRate, opt.beta1))
  {
    CNamePlain(opt.name);
    NameBack(opt);
  }

  /** The checkpoint of any other optimizer, RMSProp's among them, restores nothing: the caller's optimizer stays. */
  lemma OtherCheckpoint(opt: Optimizer)
    requires |CName(opt.name)| < 64 && CName(opt.name) != "adam" && CName(opt.name) != "sgd"
    ensures ReadOptimizer(OptimizerFields(opt)) == Some(OtherName)
  {
    NameBack(opt);
  }
}
