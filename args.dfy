/** Command-line argument lists as the client stages build them: a sequence of
    options, each a flag followed by its values, written out flat. */
module Args {
  import opened Wrappers

  datatype Opt = Opt(flag: string, values: seq<string>)

  /** The argument list the options are written as: each flag, then its values. */
  function Flatten(opts: seq<Opt>): (args: seq<string>)
    ensures |args| >= |opts|
  {
    if opts == [] then [] else [opts[0].flag] + opts[0].values + Flatten(opts[1..])
  }

  /** The flags of the options, in order. */
  function Flags(opts: seq<Opt>): (fs: seq<string>)
    ensures |fs| == |opts|
  {
    if opts == [] then [] else [opts[0].flag] + Flags(opts[1..])
  }

  /** `xs` when `c` holds, nothing otherwise: what a guarded append adds. */
  function When<T>(c: bool, xs: seq<T>): seq<T> {
    if c then xs else []
  }

  /** The k-th flag is the flag of the k-th option. */
  lemma {:induction false} FlagsAt(opts: seq<Opt>)
    ensures forall k :: 0 <= k < |opts| ==> Flags(opts)[k] == opts[k].flag
  {
    if opts != [] {
      FlagsAt(opts[1..]);
    }
  }

  lemma FlagsWhen(c: bool, o: Opt)
    ensures Flags(When(c, [o])) == When(c, [o.flag])
  {
    if c {
      assert [o][1..] == [];
    }
  }

  /** The number of values each known flag takes. */
  type Arity = map<string, nat>

  /** Every option is a known flag with as many values as the flag takes. */
  predicate Fits(opts: seq<Opt>, arity: Arity) {
    forall k :: 0 <= k < |opts| ==> opts[k].flag in arity && arity[opts[k].flag] == |opts[k].values|
  }

  /** Reading a flat argument list back into options, as an option parser that
      knows each flag's arity does; None for an unknown flag or missing values. */
  function Parse(args: seq<string>, arity: Arity): Option<seq<Opt>>
    decreases |args|
  {
    if args == [] then Some([])
    else if args[0] !in arity || |args| < 1 + arity[args[0]] then None
    else
      match Parse(args[1 + arity[args[0]]..], arity)
      case None => None
      case Some(rest) => Some([Opt(args[0], args[1..1 + arity[args[0]]])] + rest)
  }

  /** Parsing the flat list of options that fit the arity gives the options back:
      a built argument list is read by the tool as the options it was built from. */
  lemma {:induction false} ParseFlatten(opts: seq<Opt>, arity: Arity)
    requires Fits(opts, arity)
    ensures Parse(Flatten(opts), arity) == Some(opts)
  {
    if opts != [] {
      var o := opts[0];
      var tail := opts[1..];
      assert Fits(tail, arity) by {
        forall k | 0 <= k < |tail|
          ensures tail[k].flag in arity && arity[tail[k].flag] == |tail[k].values|
        {
          assert tail[k] == opts[k + 1];
        }
      }
      ParseFlatten(tail, arity);
      var args := Flatten(opts);
      var n := |o.values|;
      assert args == [o.flag] + o.values + Flatten(tail);
      assert args[1..1 + n] == o.values;
      assert args[1 + n..] == Flatten(tail);
      assert [Opt(o.flag, o.values)] + tail == opts;
    }
  }

  /** Two option lists that fit the arity and are written the same are the same. */
  lemma FlattenInjective(a: seq<Opt>, b: seq<Opt>, arity: Arity)
    requires Fits(a, arity) && Fits(b, arity)
    requires Flatten(a) == Flatten(b)
    ensures a == b
  {
    ParseFlatten(a, arity);
    ParseFlatten(b, arity);
  }

  lemma {:induction false} FlattenAppend(a: seq<Opt>, b: seq<Opt>)
    ensures Flatten(a + b) == Flatten(a) + Flatten(b)
  {
    if a != [] {
      assert (a + b)[1..] == a[1..] + b;
      FlattenAppend(a[1..], b);
    } else {
      assert a + b == b;
    }
  }

  lemma {:induction false} FlagsAppend(a: seq<Opt>, b: seq<Opt>)
    ensures Flags(a + b) == Flags(a) + Flags(b)
  {
    if a != [] {
      assert (a + b)[1..] == a[1..] + b;
      FlagsAppend(a[1..], b);
    } else {
      assert a + b == b;
    }
  }

  lemma FitsAppend(a: seq<Opt>, b: seq<Opt>, arity: Arity)
    requires Fits(a, arity) && Fits(b, arity)
    ensures Fits(a + b, arity)
  {
    forall k | 0 <= k < |a + b|
      ensures (a + b)[k].flag in arity && arity[(a + b)[k].flag] == |(a + b)[k].values|
    {
      if k >= |a| {
        assert (a + b)[k] == b[k - |a|];
      }
    }
  }

  /** Six parts that fit make a whole that fits. */
  lemma FitsAppend6(a: seq<Opt>, b: seq<Opt>, c: seq<Opt>, d: seq<Opt>, e: seq<Opt>, f: seq<Opt>, arity: Arity)
    requires Fits(a, arity) && Fits(b, arity) && Fits(c, arity)
    requires Fits(d, arity) && Fits(e, arity) && Fits(f, arity)
    ensures Fits(a + b + c + d + e + f, arity)
  {
    FitsAppend(a, b, arity);
    FitsAppend(a + b, c, arity);
    FitsAppend(a + b + c, d, arity);
    FitsAppend(a + b + c + d, e, arity);
    FitsAppend(a + b + c + d + e, f, arity);
  }

  /** Options that fit an arity fit any arity that agrees with it on its flags. */
  lemma FitsWider(opts: seq<Opt>, small: Arity, large: Arity)
    requires Fits(opts, small)
    requires forall f :: f in small ==> f in large && large[f] == small[f]
    ensures Fits(opts, large)
  {
  }

  /** A guarded flag without a value, written out. */
  lemma FlattenWhenFlag(c: bool, f: string)
    ensures Flatten(When(c, [Opt(f, [])])) == When(c, [f])
  {
    if c {
      assert [Opt(f, [])][1..] == [];
    }
  }

  /** A guarded flag with one value, written out. */
  lemma FlattenWhenValue(c: bool, f: string, v: string)
    ensures Flatten(When(c, [Opt(f, [v])])) == When(c, [f, v])
  {
    if c {
      assert [Opt(f, [v])][1..] == [];
    }
  }

  /** `a` is `b` with some elements left out, the rest kept in order. */
  predicate Subsequence(a: seq<string>, b: seq<string>)
    decreases |b|
  {
    a == [] || (b != [] && ((a[0] == b[0] && Subsequence(a[1..], b[1..])) || Subsequence(a, b[1..])))
  }

  /** Everything in a subsequence is in the sequence. */
  lemma {:induction false} SubsequenceIn(a: seq<string>, b: seq<string>)
    requires Subsequence(a, b)
    ensures forall x :: x in a ==> x in b
    decreases |b|
  {
    if a != [] {
      if a[0] == b[0] && Subsequence(a[1..], b[1..]) {
        SubsequenceIn(a[1..], b[1..]);
        assert a == [a[0]] + a[1..];
      } else {
        SubsequenceIn(a, b[1..]);
      }
    }
  }

  lemma {:induction false} SubsequenceRefl(a: seq<string>)
    ensures Subsequence(a, a)
  {
    if a != [] {
      SubsequenceRefl(a[1..]);
    }
  }

  /** Anything in front of the larger sequence can be left out. */
  lemma {:induction false} SubsequenceSkip(a: seq<string>, c: seq<string>, b: seq<string>)
    requires Subsequence(a, b)
    ensures Subsequence(a, c + b)
    decreases |c|
  {
    if c != [] {
      SubsequenceSkip(a, c[1..], b);
      assert (c + b)[1..] == c[1..] + b;
    } else {
      assert c + b == b;
    }
  }

  /** Subsequences of the parts make a subsequence of the whole. */
  lemma {:induction false} SubsequenceAppend(a1: seq<string>, b1: seq<string>, a2: seq<string>, b2: seq<string>)
    requires Subsequence(a1, b1) && Subsequence(a2, b2)
    ensures Subsequence(a1 + a2, b1 + b2)
    decreases |b1|
  {
    if a1 == [] {
      assert a1 + a2 == a2;
      SubsequenceSkip(a2, b1, b2);
    } else {
      assert (b1 + b2)[1..] == b1[1..] + b2;
      if a1[0] == b1[0] && Subsequence(a1[1..], b1[1..]) {
        SubsequenceAppend(a1[1..], b1[1..], a2, b2);
        assert (a1 + a2)[1..] == a1[1..] + a2;
      } else {
        SubsequenceAppend(a1, b1[1..], a2, b2);
      }
    }
  }

  /** A guarded append keeps the order or adds nothing. */
  lemma WhenInOrder(c: bool, fs: seq<string>)
    ensures Subsequence(When(c, fs), fs)
  {
    SubsequenceRefl(fs);
  }

  lemma FitsWhen(c: bool, o: Opt, arity: Arity)
    requires o.flag in arity && arity[o.flag] == |o.values|
    ensures Fits(When(c, [o]), arity)
  {
  }
}
