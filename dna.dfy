/**
 * dna.go: the flat genome of a network and its text form.
 *
 * A genome is a list of reals, four per synapse (source, destination,
 * weight, destination bias). The per-synapse genes come from `synapse.DNA`
 * over `Net.synapses`, which are not part of this model: `NetToDna` takes
 * the list of those gene groups. `%f` formatting of a float is a parameter.
 */
module Dna {
  import opened Wrappers

  type DNA = seq<real>

  /** The gene groups joined end to end, in order. */
  function Concat(groups: seq<seq<real>>): (dna: DNA)
  {
    if groups == [] then [] else Concat(groups[..|groups| - 1]) + groups[|groups| - 1]
  }

  /** NetToDna: appends every synapse's genes, in synapse order. */
  method NetToDna(groups: seq<seq<real>>) returns (dna: DNA)
    ensures dna == Concat(groups)
  {
    dna := [];
    var i := 0;
    while i < |groups|
      invariant 0 <= i <= |groups|
      invariant dna == Concat(groups[..i])
    {
      assert groups[..i + 1][..i] == groups[..i];
      dna := dna + groups[i];
      i := i + 1;
    }
    assert groups[..i] == groups;
  }

  /** With four genes per synapse the genome holds four reals per synapse. */
  lemma {:induction false} ConcatLength(groups: seq<seq<real>>)
    requires forall i :: 0 <= i < |groups| ==> |groups[i]| == 4
    ensures |Concat(groups)| == 4 * |groups|
    ensures |Concat(groups)| % 4 == 0
  {
    if groups != [] {
      ConcatLength(groups[..|groups| - 1]);
    }
  }

  /** A network without synapses has an empty genome. */
  lemma NoSynapses()
    ensures Concat([]) == []
  {
  }

  /** One line of DNA.String: the four fields of one synapse, labelled, ending in a newline. */
  function Record(group: seq<real>, fmt: real -> string): (line: string)
    requires |group| == 4
    ensures |line| > 0 && line[|line| - 1] == '\n'
  {
    "source: " + fmt(group[0]) + " " + "dest: " + fmt(group[1]) + " " + "weight: " + fmt(group[2]) + " "
    + "dest bias: " + fmt(group[3]) + "\n"
  }

  /** The records of every complete group of four in the genome, one per group, from the front. */
  function Text(dna: DNA, fmt: real -> string): string
  {
    if |dna| < 4 then "" else Record(dna[..4], fmt) + Text(dna[4..], fmt)
  }

  /** What DNA.String produces: the text, or the index panic when the last group is short. */
  function Render(dna: DNA, fmt: real -> string): (r: Result<string>)
    ensures r.Ok? <==> |dna| % 4 == 0
  {
    if |dna| % 4 == 0 then Ok(Text(dna, fmt)) else Err("index out of range")
  }

  /** DNA.String: reads four reals per step and appends their record. */
  method String(dna: DNA, fmt: real -> string) returns (r: Result<string>)
    ensures r == Render(dna, fmt)
  {
    var i := 0;
    var ret := "";
    ghost var groups := 0;
    while i < |dna|
      invariant 0 <= i <= |dna| && i == 4 * groups
      invariant Text(dna, fmt) == ret + Text(dna[i..], fmt)
    {
      if i + 3 >= |dna| {
        ShortTail(groups, |dna|);
        assert |dna| % 4 != 0;
        return Err("index out of range");
      }
      TextStep(dna, i, ret, fmt);
      ret := ret + Record(dna[i..i + 4], fmt);
      i := i + 4;
      groups := groups + 1;
    }
    ShiftMod4(groups, 0);
    TextEnd(dna, fmt);
    assert i == |dna|;
    assert ret == Text(dna, fmt);
    r := Ok(ret);
  }

  /** One step of the loop: the text from `i` on is the record at `i`, then the text from `i + 4` on. */
  lemma TextStep(dna: DNA, i: nat, ret: string, fmt: real -> string)
    requires i + 4 <= |dna|
    ensures ret + Text(dna[i..], fmt) == (ret + Record(dna[i..i + 4], fmt)) + Text(dna[i + 4..], fmt)
  {
    assert dna[i..][..4] == dna[i..i + 4] && dna[i..][4..] == dna[i + 4..];
  }

  lemma TextEnd(dna: DNA, fmt: real -> string)
    ensures Text(dna[|dna|..], fmt) == ""
  {
    assert dna[|dna|..] == [];
  }

  /** A length that ends inside an incomplete group is not a multiple of four. */
  lemma ShortTail(groups: nat, len: nat)
    requires 4 * groups < len < 4 * groups + 4
    ensures len % 4 != 0
  {
    ShiftMod4(groups, len - 4 * groups);
  }

  /** The empty genome prints as the empty string. */
  lemma EmptyText(fmt: real -> string)
    ensures Render([], fmt) == Ok("")
  {
  }

  /** Text of a genome split after `n` complete groups is the text of each part. */
  lemma {:induction false} TextAppend(a: DNA, b: DNA, n: nat, fmt: real -> string)
    requires |a| == 4 * n
    ensures Text(a + b, fmt) == Text(a, fmt) + Text(b, fmt)
  {
    if n > 0 {
      assert (a + b)[..4] == a[..4] && (a + b)[4..] == a[4..] + b;
      TextAppend(a[4..], b, n - 1, fmt);
    } else {
      assert a + b == b;
    }
  }

  /**
   * For `a` of length a multiple of four, printing `a + b` prints `a` then
   * `b`, and fails exactly when printing `b` fails.
   */
  lemma RenderAppend(a: DNA, b: DNA, fmt: real -> string)
    requires |a| % 4 == 0
    ensures Render(a + b, fmt) == if |b| % 4 == 0 then Ok(Text(a, fmt) + Text(b, fmt)) else Render(b, fmt)
  {
    LengthAppend(a, b);
    TextAppend(a, b, Quarter(|a|), fmt);
  }

  /** Appending whole groups keeps the remainder of the length. */
  lemma LengthAppend(a: DNA, b: DNA)
    requires |a| % 4 == 0
    ensures |a + b| % 4 == |b| % 4
  {
    ShiftMod4(Quarter(|a|), |b|);
  }

  /** The number of whole groups in a length that is a multiple of four. */
  function Quarter(x: nat): (q: nat)
    requires x % 4 == 0
    ensures x == 4 * q
  {
    x / 4
  }

  lemma {:induction false} ShiftMod4(q: nat, y: nat)
    ensures (4 * q + y) % 4 == y % 4
  {
    if q > 0 {
      ShiftMod4(q - 1, y);
      assert 4 * q + y == (4 * (q - 1) + y) + 4;
    }
  }

  /** The records of a list of four-gene groups, one line per group, in order. */
  function Lines(groups: seq<seq<real>>, fmt: real -> string): string
    requires forall i :: 0 <= i < |groups| ==> |groups[i]| == 4
  {
    if groups == [] then ""
    else
      Lines(groups[..|groups| - 1], fmt) + Record(groups[|groups| - 1], fmt)
  }

  /** Printing the genome of a network prints one record per synapse, in synapse order. */
  lemma {:induction false} RenderGenome(groups: seq<seq<real>>, fmt: real -> string)
    requires forall i :: 0 <= i < |groups| ==> |groups[i]| == 4
    ensures Render(Concat(groups), fmt) == Ok(Lines(groups, fmt))
  {
    ConcatLength(groups);
    if groups != [] {
      var init := groups[..|groups| - 1];
      var g := groups[|groups| - 1];
      RenderGenome(init, fmt);
      ConcatLength(init);
      TextAppend(Concat(init), g, |init|, fmt);
      assert g[..4] == g && g[4..] == [];
      assert Text(g, fmt) == Record(g, fmt);
      assert Concat(groups) == Concat(init) + g;
      assert Text(Concat(init), fmt) == Lines(init, fmt);
    }
  }
}
