/**
 * The option handling of `main` after `getopt` has split the command line
 * into `(flag, value)` pairs: a fold in which a later pair overwrites an
 * earlier one, except that a `-s` or `-n` value that does not parse is
 * reported and leaves the previous value in place.
 */
module CommandLine {
  import opened Wrappers
  import opened Decimal

  /** The five options the script understands. */
  datatype Kind = LocalOutput | HdfsOutput | Scale | Part | NumParts

  /** The options after the fold; `None` is an option never set. */
  datatype Options = Options(
    localOutput: Option<string>,
    hdfsOutput: Option<string>,
    scale: Option<string>,
    partition: Option<string>,
    numParts: Option<int>)

  const Unset := Options(None, None, None, None, None)

  /** The short and long spelling of each option. */
  function KindOf(flag: string): Option<Kind> {
    if flag == "-l" || flag == "--local-output" then Some(LocalOutput)
    else if flag == "-h" || flag == "--hdfs-output" then Some(HdfsOutput)
    else if flag == "-s" || flag == "--scale" then Some(Scale)
    else if flag == "-p" || flag == "--part" then Some(Part)
    else if flag == "-n" || flag == "--num-parts" then Some(NumParts)
    else None
  }

  /**
   * A decimal number as `float()` accepts it: blanks around, an optional
   * sign, then digits with an optional fractional part (`1`, `1.`, `.5`).
   */
  predicate IsDecimalNumber(s: string) {
    var t := Trim(s);
    var m := if |t| > 0 && (t[0] == '-' || t[0] == '+') then t[1..] else t;
    exists k :: 0 <= k <= |m| && AllDigits(m[..k]) &&
      ((k == |m| && k > 0) ||
       (k < |m| && m[k] == '.' && AllDigits(m[k + 1..]) && (k > 0 || k + 1 < |m|)))
  }

  /** Whether a value given to an option of kind `k` is kept. */
  predicate Accepts(k: Kind, value: string) {
    match k
    case Scale => IsDecimalNumber(value)
    case NumParts => ParseInt(value).Some?
    case _ => true
  }

  /** The pair sets option `k`. */
  predicate Sets(pair: (string, string), k: Kind) {
    KindOf(pair.0) == Some(k) && Accepts(k, pair.1)
  }

  /**
   * One turn of the `for o, a in opts` loop: it changes only the option its
   * flag names, and `-s` or `-n` only when the value parses.
   */
  function Step(o: Options, pair: (string, string)): (r: Options)
    ensures r.localOutput == (if Sets(pair, LocalOutput) then Some(pair.1) else o.localOutput)
    ensures r.hdfsOutput == (if Sets(pair, HdfsOutput) then Some(pair.1) else o.hdfsOutput)
    ensures r.scale == (if Sets(pair, Scale) then Some(pair.1) else o.scale)
    ensures r.partition == (if Sets(pair, Part) then Some(pair.1) else o.partition)
    ensures r.numParts == (if Sets(pair, NumParts) then ParseInt(pair.1) else o.numParts)
  {
    var (flag, value) := pair;
    match KindOf(flag)
    case Some(LocalOutput) => o.(localOutput := Some(value))
    case Some(HdfsOutput) => o.(hdfsOutput := Some(value))
    case Some(Scale) => if IsDecimalNumber(value) then o.(scale := Some(value)) else o
    case Some(Part) => o.(partition := Some(value))
    case Some(NumParts) =>
      (match ParseInt(value)
       case Some(n) => o.(numParts := Some(n))
       case None => o)
    case None => o
  }

  /** The position of the last pair that sets option `k`. */
  function LastSetting(opts: seq<(string, string)>, k: Kind): (r: Option<nat>)
    ensures r.Some? ==>
      r.value < |opts| && Sets(opts[r.value], k) &&
      forall j :: r.value < j < |opts| ==> !Sets(opts[j], k)
    ensures r.None? ==> forall j :: 0 <= j < |opts| ==> !Sets(opts[j], k)
    decreases |opts|
  {
    if opts == [] then None
    else if Sets(opts[|opts| - 1], k) then Some(|opts| - 1)
    else LastSetting(opts[..|opts| - 1], k)
  }

  /** The text given with the last pair that sets option `k`. */
  function LastValue(opts: seq<(string, string)>, k: Kind): Option<string> {
    match LastSetting(opts, k)
    case Some(i) => Some(opts[i].1)
    case None => None
  }

  lemma LastValueStep(opts: seq<(string, string)>, k: Kind)
    requires opts != []
    ensures LastValue(opts, k) ==
      if Sets(opts[|opts| - 1], k) then Some(opts[|opts| - 1].1)
      else LastValue(opts[..|opts| - 1], k)
  {
    var init := opts[..|opts| - 1];
    if !Sets(opts[|opts| - 1], k) {
      match LastSetting(init, k)
      case Some(i) => assert opts[i] == init[i];
      case None =>
    }
  }

  /**
   * The whole loop, as a fold from the left: every option ends up holding
   * the value of the last pair that sets it (`-n` its integer), or `None`
   * when no pair does.
   */
  function Fold(opts: seq<(string, string)>): (r: Options)
    ensures r.localOutput == LastValue(opts, LocalOutput)
    ensures r.hdfsOutput == LastValue(opts, HdfsOutput)
    ensures r.scale == LastValue(opts, Scale)
    ensures r.partition == LastValue(opts, Part)
    ensures r.numParts ==
      match LastValue(opts, NumParts)
      case Some(v) => ParseInt(v)
      case None => None
    decreases |opts|
  {
    if opts == [] then Unset
    else
      LastValueStep(opts, LocalOutput);
      LastValueStep(opts, HdfsOutput);
      LastValueStep(opts, Scale);
      LastValueStep(opts, Part);
      LastValueStep(opts, NumParts);
      Step(Fold(opts[..|opts| - 1]), opts[|opts| - 1])
  }

  /**
   * The `for o, a in opts` loop of `main`: each recognised flag overwrites
   * its variable; a `-s` or `-n` value that does not parse is skipped.
   */
  method ParseOptions(opts: seq<(string, string)>) returns (o: Options)
    ensures o == Fold(opts)
  {
    var localOutput, hdfsOutput, scale, partition := None, None, None, None;
    var numParts: Option<int> := None;
    for i := 0 to |opts|
      invariant Options(localOutput, hdfsOutput, scale, partition, numParts) == Fold(opts[..i])
    {
      assert opts[..i + 1][..i] == opts[..i];
      var (flag, value) := opts[i];
      if flag == "-l" || flag == "--local-output" {
        localOutput := Some(value);
      } else if flag == "-h" || flag == "--hdfs-output" {
        hdfsOutput := Some(value);
      } else if flag == "-s" || flag == "--scale" {
        if IsDecimalNumber(value) {
          scale := Some(value);
        }
      } else if flag == "-p" || flag == "--part" {
        partition := Some(value);
      } else if flag == "-n" || flag == "--num-parts" {
        var n := ParseInt(value);
        if n.Some? {
          numParts := n;
        }
      }
    }
    assert opts[..|opts|] == opts;
    o := Options(localOutput, hdfsOutput, scale, partition, numParts);
  }

  /** The check of lines 131-134: some option was never set. */
  predicate Missing(o: Options) {
    o.localOutput.None? || o.hdfsOutput.None? || o.partition.None? ||
    o.numParts.None? || o.scale.None?
  }

  /** Some pair sets option `k`. */
  predicate Given(opts: seq<(string, string)>, k: Kind) {
    exists i :: 0 <= i < |opts| && Sets(opts[i], k)
  }

  /** One more pair on the command line is one more turn of the loop. */
  lemma FoldAppend(opts: seq<(string, string)>, pair: (string, string))
    ensures Fold(opts + [pair]) == Step(Fold(opts), pair)
  {
    assert (opts + [pair])[..|opts|] == opts;
  }

  /** The run goes ahead exactly when every option has been set by some pair. */
  lemma CompleteIffAllGiven(opts: seq<(string, string)>)
    ensures !Missing(Fold(opts)) <==> forall k: Kind :: Given(opts, k)
  {
    forall k: Kind ensures Given(opts, k) <==> LastSetting(opts, k).Some? {
      if LastSetting(opts, k).Some? {
        var i := LastSetting(opts, k).value;
        assert Sets(opts[i], k);
      }
    }
    var numParts := LastSetting(opts, NumParts);
    if numParts.Some? {
      assert Sets(opts[numParts.value], NumParts);
    }
    if !Missing(Fold(opts)) {
      forall k: Kind ensures Given(opts, k) {
        match k
        case LocalOutput =>
        case HdfsOutput =>
        case Scale =>
        case Part =>
        case NumParts =>
      }
    } else {
      assert !(Given(opts, LocalOutput) && Given(opts, HdfsOutput) && Given(opts, Scale) &&
               Given(opts, Part) && Given(opts, NumParts));
    }
  }
}
