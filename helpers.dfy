/**
 * The glue around training: choosing the run directory and the checkpoint file to load,
 * overriding configuration fields from the command line, and the input layout of the exported
 * policy. Directory listings are given as data: `listdir` maps a path to its entries, or to
 * `None` when the path cannot be listed.
 */
module Helpers {
  import opened Wrappers
  import opened ActorCritic

  // ---------------------------------------------------------------------------------------
  // String order

  /** Python's `<=` on strings: code-point lexicographic order, a prefix coming first. */
  predicate LexLe(a: string, b: string)
  {
    |a| == 0 || (|b| > 0 && (a[0] < b[0] || (a[0] == b[0] && LexLe(a[1..], b[1..]))))
  }

  lemma {:induction false} LexLeReflexive(a: string)
    ensures LexLe(a, a)
  {
    if |a| > 0 {
      LexLeReflexive(a[1..]);
    }
  }

  lemma {:induction false} LexLeTotal(a: string, b: string)
    ensures LexLe(a, b) || LexLe(b, a)
  {
    if |a| > 0 && |b| > 0 && a[0] == b[0] {
      LexLeTotal(a[1..], b[1..]);
    }
  }

  lemma {:induction false} LexLeTransitive(a: string, b: string, c: string)
    requires LexLe(a, b) && LexLe(b, c)
    ensures LexLe(a, c)
  {
    if |a| > 0 && a[0] == b[0] && b[0] == c[0] {
      LexLeTransitive(a[1..], b[1..], c[1..]);
    }
  }

  lemma {:induction false} LexLeAntisymmetric(a: string, b: string)
    requires LexLe(a, b) && LexLe(b, a)
    ensures a == b
  {
    if |a| > 0 {
      LexLeAntisymmetric(a[1..], b[1..]);
      assert a == [a[0]] + a[1..] && b == [b[0]] + b[1..];
    }
  }

  /**
   * The index `sorted(s, key=key)[-1]` comes from: a greatest key, and among equal greatest keys
   * the last one, as a stable sort leaves them in listing order.
   */
  function MaxIndex(s: seq<string>, key: string -> string): (k: nat)
    requires |s| > 0
    ensures k < |s|
  {
    if |s| == 1 then 0
    else
      var m := MaxIndex(s[..|s| - 1], key);
      if LexLe(key(s[m]), key(s[|s| - 1])) then |s| - 1 else m
  }

  /** Entry `k` has a greatest key, and every later entry has a strictly smaller one. */
  ghost predicate LastGreatest(s: seq<string>, key: string -> string, k: nat)
  {
    && k < |s|
    && (forall j :: 0 <= j < |s| ==> LexLe(key(s[j]), key(s[k])))
    && (forall j :: k < j < |s| ==> key(s[j]) != key(s[k]))
  }

  /** `MaxIndex` picks what a stable sort puts last. */
  lemma {:induction false} MaxIndexIsGreatest(s: seq<string>, key: string -> string)
    requires |s| > 0
    ensures LastGreatest(s, key, MaxIndex(s, key))
  {
    var k := MaxIndex(s, key);
    if |s| == 1 {
      LexLeReflexive(key(s[0]));
    } else {
      var p := s[..|s| - 1];
      var m := MaxIndex(p, key);
      var last := key(s[|s| - 1]);
      MaxIndexIsGreatest(p, key);
      if LexLe(key(s[m]), last) {
        forall j | 0 <= j < |s|
          ensures LexLe(key(s[j]), last)
        {
          if j < |s| - 1 {
            assert s[j] == p[j];
            LexLeTransitive(key(s[j]), key(s[m]), last);
          } else {
            LexLeReflexive(last);
          }
        }
      } else {
        LexLeTotal(key(s[m]), last);
        if last == key(s[m]) {
          LexLeReflexive(last);
        }
        forall j | 0 <= j < |s| - 1
          ensures LexLe(key(s[j]), key(s[m]))
        {
          assert s[j] == p[j];
        }
        forall j | m < j < |s| - 1
          ensures key(s[j]) != key(s[m])
        {
          assert s[j] == p[j];
        }
      }
    }
  }

  /** The scan that replaces sorting and taking the last entry. */
  method SelectLast(s: seq<string>, key: string -> string) returns (k: nat)
    requires |s| > 0
    ensures k == MaxIndex(s, key)
  {
    k := 0;
    var i := 1;
    while i < |s|
      invariant 1 <= i <= |s|
      invariant k == MaxIndex(s[..i], key)
    {
      assert s[..i + 1][..i] == s[..i];
      if LexLe(key(s[k]), key(s[i])) {
        k := i;
      }
      i := i + 1;
    }
    assert s[..|s|] == s;
  }

  // ---------------------------------------------------------------------------------------
  // Paths and names

  /** `os.path.isabs` on POSIX. */
  predicate IsAbs(path: string)
  {
    |path| > 0 && path[0] == '/'
  }

  /** `os.path.join(a, b)` on POSIX: an absolute `b` replaces `a`, otherwise one separator joins them. */
  function Join(a: string, b: string): (r: string)
    ensures IsAbs(b) ==> r == b
    ensures !IsAbs(b) ==> |r| >= |a| + |b| && r[..|a|] == a && r[|r| - |b|..] == b
    ensures !IsAbs(b) ==> |r| <= |a| + 1 + |b|
    ensures !IsAbs(b) && |a| > 0 ==> r[|r| - |b| - 1] == '/'
  {
    if IsAbs(b) then b
    else if |a| == 0 || a[|a| - 1] == '/' then a + b
    else a + "/" + b
  }

  /** `list.remove(x)` when `x` is present: the first occurrence goes, nothing else changes. */
  function RemoveFirst(s: seq<string>, x: string): (r: seq<string>)
    ensures x in s ==> multiset(r) == multiset(s) - multiset{x}
    ensures x !in s ==> r == s
  {
    if |s| == 0 then []
    else
      assert s == [s[0]] + s[1..];
      if s[0] == x then s[1..] else [s[0]] + RemoveFirst(s[1..], x)
  }

  /** The run candidates of a root listing: everything but one `'exported'` entry. */
  function Runs(listing: seq<string>): seq<string>
  {
    RemoveFirst(listing, "exported")
  }

  /** A unique `'exported'` entry is never a run candidate; every other entry is. */
  lemma RunsExcludeExported(listing: seq<string>)
    requires multiset(listing)["exported"] <= 1
    ensures "exported" !in Runs(listing)
    ensures forall x :: x in listing && x != "exported" ==> x in Runs(listing)
  {
    var r := Runs(listing);
    if "exported" in listing {
      assert multiset(r)["exported"] == 0;
      forall x | x in listing && x != "exported"
        ensures x in r
      {
        assert multiset(r)[x] == multiset(listing)[x];
      }
    }
  }

  /** Python's `part in s` for strings: `part` occurs in `s` at some position. */
  predicate Contains(s: string, part: string)
  {
    |s| >= |part| && (s[..|part|] == part || (|s| > 0 && Contains(s[1..], part)))
  }

  /** `[file for file in listing if 'model' in file]`. */
  function ModelFiles(listing: seq<string>): (r: seq<string>)
    ensures forall x :: x in r <==> x in listing && Contains(x, "model")
    ensures |r| <= |listing|
  {
    if |listing| == 0 then []
    else
      assert forall x :: x in listing <==> x == listing[0] || x in listing[1..];
      (if Contains(listing[0], "model") then [listing[0]] else []) + ModelFiles(listing[1..])
  }

  const ModelKeyWidth: nat := 15

  /** `'{0:0>15}'.format(name)`: left-padded with `'0'` to width 15; longer names are unchanged. */
  function ModelKey(name: string): (r: string)
    ensures |r| == if |name| >= ModelKeyWidth then |name| else ModelKeyWidth
    ensures r[|r| - |name|..] == name
    ensures forall i :: 0 <= i < |r| - |name| ==> r[i] == '0'
  {
    if |name| >= ModelKeyWidth then name else seq(ModelKeyWidth - |name|, _ => '0') + name
  }

  function Identity(s: string): string { s }

  function Digit(d: nat): (c: char)
    requires d < 10
    ensures '0' <= c <= '9'
  {
    (d + '0' as int) as char
  }

  /** `str(n)` for a natural number: its decimal digits, most significant first. */
  function NatToString(n: nat): (r: string)
    ensures |r| > 0 && forall i :: 0 <= i < |r| ==> '0' <= r[i] <= '9'
    ensures r[0] == '0' ==> n == 0
  {
    if n < 10 then [Digit(n)] else NatToString(n / 10) + [Digit(n % 10)]
  }

  /** `str(k)`: a minus sign before the digits of a negative number. */
  function IntToString(k: int): string
  {
    if k < 0 then "-" + NatToString(-k) else NatToString(k)
  }

  /** The value of a string of decimal digits. */
  function DigitsValue(s: string): nat
  {
    if |s| == 0 then 0
    else DigitsValue(s[..|s| - 1]) * 10 + (if '0' <= s[|s| - 1] <= '9' then s[|s| - 1] as int - '0' as int else 0)
  }

  /** `int(s)` for what `str` produces. */
  function ParseInt(s: string): int
  {
    if |s| > 0 && s[0] == '-' then -(DigitsValue(s[1..]) as int) else DigitsValue(s)
  }

  lemma {:induction false} NatToStringRoundTrip(n: nat)
    ensures DigitsValue(NatToString(n)) == n
  {
    if n >= 10 {
      var s := NatToString(n);
      NatToStringRoundTrip(n / 10);
      assert s[..|s| - 1] == NatToString(n / 10);
    }
  }

  /** `int(str(k)) == k`: the decimal rendering loses nothing. */
  lemma IntToStringRoundTrip(k: int)
    ensures ParseInt(IntToString(k)) == k
  {
    if k < 0 {
      NatToStringRoundTrip(-k);
      assert IntToString(k)[1..] == NatToString(-k);
    } else {
      NatToStringRoundTrip(k);
    }
  }

  /** `"model_{}.pt".format(k)`. */
  function CheckpointFile(k: int): (r: string)
    ensures |r| >= 10 && r[..6] == "model_" && r[|r| - 3..] == ".pt"
  {
    "model_" + IntToString(k) + ".pt"
  }

  /** Distinct checkpoints name distinct files: the number can be read back from the name. */
  lemma CheckpointFileInjective(a: int, b: int)
    requires CheckpointFile(a) == CheckpointFile(b)
    ensures a == b
  {
    var fa, fb := CheckpointFile(a), CheckpointFile(b);
    assert fa[6..|fa| - 3] == IntToString(a);
    assert fb[6..|fb| - 3] == IntToString(b);
    IntToStringRoundTrip(a);
    IntToStringRoundTrip(b);
  }

  /** The string order decides at the first difference. */
  lemma {:induction false} LexLessAt(x: string, y: string, i: nat)
    requires i < |x| && i < |y| && x[..i] == y[..i] && x[i] < y[i]
    ensures LexLe(x, y) && !LexLe(y, x)
  {
    if i > 0 {
      assert x[0] == x[..i][0] == y[..i][0] == y[0];
      assert x[1..][..i - 1] == x[..i][1..] == y[..i][1..] == y[1..][..i - 1];
      LexLessAt(x[1..], y[1..], i - 1);
    }
  }

  /** A larger number never has fewer digits. */
  lemma {:induction false} NatToStringLengthMonotone(a: nat, b: nat)
    requires a <= b
    ensures |NatToString(a)| <= |NatToString(b)|
  {
    if a >= 10 {
      NatToStringLengthMonotone(a / 10, b / 10);
    }
  }

  /** A number below one million has at most six digits. */
  lemma NatToStringBelowMillion(n: nat)
    requires n < 1000000
    ensures |NatToString(n)| <= 6
  {
    NatToStringLengthMonotone(n, 999999);
    assert NatToString(999999) == "999999";
  }

  /** Two numbers with as many digits differ first at a digit where the smaller one is smaller. */
  lemma {:induction false} NatToStringFirstDifference(a: nat, b: nat) returns (i: nat)
    requires a < b && |NatToString(a)| == |NatToString(b)|
    ensures i < |NatToString(a)| && NatToString(a)[..i] == NatToString(b)[..i]
    ensures NatToString(a)[i] < NatToString(b)[i]
  {
    var sa, sb := NatToString(a), NatToString(b);
    if b < 10 {
      i := 0;
    } else {
      assert a >= 10;
      assert sa[..|sa| - 1] == NatToString(a / 10) && sb[..|sb| - 1] == NatToString(b / 10);
      if a / 10 == b / 10 {
        i := |sa| - 1;
      } else {
        i := NatToStringFirstDifference(a / 10, b / 10);
        assert sa[..i] == NatToString(a / 10)[..i] && sb[..i] == NatToString(b / 10)[..i];
      }
    }
  }

  /** The key of a checkpoint below one million: its file name, padded with `'0'` to 15 characters. */
  lemma PaddedCheckpointKey(k: nat)
    requires k < 1000000
    ensures |NatToString(k)| <= 6
    ensures ModelKey(CheckpointFile(k))
         == seq(6 - |NatToString(k)|, _ => '0') + "model_" + NatToString(k) + ".pt"
  {
    NatToStringBelowMillion(k);
    assert CheckpointFile(k) == "model_" + NatToString(k) + ".pt";
  }

  /** A key with more padding sorts first: it has a `'0'` where the other one starts its name. */
  lemma {:induction false} MorePaddingFirst(sa: string, sb: string)
    requires |sa| < |sb| <= 6
    ensures var ka := seq(6 - |sa|, _ => '0') + "model_" + sa + ".pt";
            var kb := seq(6 - |sb|, _ => '0') + "model_" + sb + ".pt";
            LexLe(ka, kb) && !LexLe(kb, ka)
  {
    var ka := seq(6 - |sa|, _ => '0') + "model_" + sa + ".pt";
    var kb := seq(6 - |sb|, _ => '0') + "model_" + sb + ".pt";
    var p := 6 - |sb|;
    assert ka[..p] == kb[..p];
    assert ka[p] == '0' && kb[p] == 'm';
    LexLessAt(ka, kb, p);
  }

  /** Keys with equal padding sort as their digits do. */
  lemma {:induction false} EqualPaddingByDigits(sa: string, sb: string, i: nat)
    requires |sa| == |sb| <= 6 && i < |sa| && sa[..i] == sb[..i] && sa[i] < sb[i]
    ensures var ka := seq(6 - |sa|, _ => '0') + "model_" + sa + ".pt";
            var kb := seq(6 - |sb|, _ => '0') + "model_" + sb + ".pt";
            LexLe(ka, kb) && !LexLe(kb, ka)
  {
    var pad := seq(6 - |sa|, _ => '0');
    var ka := pad + "model_" + sa + ".pt";
    var kb := pad + "model_" + sb + ".pt";
    var q := |pad| + 6 + i;
    assert ka[..q] == pad + "model_" + sa[..i];
    assert kb[..q] == pad + "model_" + sb[..i];
    assert ka[q] == sa[i] && kb[q] == sb[i];
    LexLessAt(ka, kb, q);
  }

  /**
   * The padded key `'{0:0>15}'` sorts checkpoint files by number as long as their names fit in
   * the padding, that is for checkpoints below one million.
   */
  lemma ModelKeyOrdersCheckpoints(a: nat, b: nat)
    requires a < b < 1000000
    ensures LexLe(ModelKey(CheckpointFile(a)), ModelKey(CheckpointFile(b)))
    ensures !LexLe(ModelKey(CheckpointFile(b)), ModelKey(CheckpointFile(a)))
  {
    var sa, sb := NatToString(a), NatToString(b);
    PaddedCheckpointKey(a);
    PaddedCheckpointKey(b);
    NatToStringLengthMonotone(a, b);
    if |sa| < |sb| {
      MorePaddingFirst(sa, sb);
    } else {
      var i := NatToStringFirstDifference(a, b);
      EqualPaddingByDigits(sa, sb, i);
    }
  }

  /** A number with `count` digits, the first of them `d`. */
  lemma {:induction false} LeadingDigit(n: nat, count: nat, d: nat)
    requires 0 < d < 10 && count > 0
    requires d * Pow10(count - 1) <= n < (d + 1) * Pow10(count - 1)
    ensures |NatToString(n)| == count && NatToString(n)[0] == Digit(d)
  {
    if count > 1 {
      Pow10Positive(count - 2);
      DivideBounds(n, d, Pow10(count - 2));
      LeadingDigit(n / 10, count - 1, d);
    }
  }

  function Pow10(k: nat): (r: nat)
  {
    if k == 0 then 1 else 10 * Pow10(k - 1)
  }

  lemma {:induction false} Pow10Positive(k: nat)
    ensures Pow10(k) > 0
  {
    if k > 0 {
      Pow10Positive(k - 1);
    }
  }

  /** Dropping the last digit divides the bounds by ten. */
  lemma DivideBounds(n: nat, d: nat, p: nat)
    requires p > 0 && d * (10 * p) <= n < (d + 1) * (10 * p)
    ensures d * p <= n / 10 < (d + 1) * p
  {
  }

  /** The key of a file name of 15 characters or more is the name itself. */
  lemma LongNameKey(name: string)
    requires |name| >= ModelKeyWidth
    ensures ModelKey(name) == name
  {
  }

  /**
   * From one million on the names outgrow the padding and the key falls back to plain string
   * order: checkpoint 1000000 sorts before checkpoint 999999.
   */
  lemma ModelKeyMisordersFromMillion(below: nat, million: nat)
    requires below == 999999 && million == 1000000
    ensures LexLe(ModelKey(CheckpointFile(million)), ModelKey(CheckpointFile(below)))
    ensures !LexLe(ModelKey(CheckpointFile(below)), ModelKey(CheckpointFile(million)))
  {
    var m, n := NatToString(million), NatToString(below);
    assert Pow10(6) == 1000000 && Pow10(5) == 100000;
    LeadingDigit(million, 7, 1);
    LeadingDigit(below, 6, 9);
    var ka, kb := CheckpointFile(million), CheckpointFile(below);
    assert ka == "model_" + m + ".pt" && kb == "model_" + n + ".pt";
    LongNameKey(ka);
    LongNameKey(kb);
    assert ka[..6] == kb[..6] && ka[6] == m[0] && kb[6] == n[0];
    LexLessAt(ka, kb, 6);
  }

  // ---------------------------------------------------------------------------------------
  // get_load_path

  /** `load_run`: `-1` for the latest run, or a run name or path. */
  datatype RunSelector = LatestRun | Run(name: string)

  datatype LoadError =
    | ValueError(message: string)
    | FileNotFound(path: string)
    | IndexError

  const NoRunsPrefix: string := "No runs in this directory: "

  /**
   * The run directory: the greatest root entry other than `'exported'` joined under `root`, a
   * relative run name joined under `root`, or an absolute one as given.
   */
  function RunDirectory(root: string, loadRun: RunSelector, rootListing: Option<seq<string>>): (r: Result<string, LoadError>)
    ensures loadRun.LatestRun? ==> (r.Failure? <==> rootListing.None? || |Runs(rootListing.value)| == 0)
    ensures r.Failure? ==> r.error == ValueError(NoRunsPrefix + root)
    ensures loadRun.Run? ==> r.Success?
    ensures loadRun.Run? && IsAbs(loadRun.name) ==> r.value == loadRun.name
    ensures loadRun.Run? && !IsAbs(loadRun.name) ==>
      |r.value| >= |root| + |loadRun.name|
      && r.value[..|root|] == root && r.value[|r.value| - |loadRun.name|..] == loadRun.name
    ensures loadRun.Run? && !IsAbs(loadRun.name) ==> r.value == Join(root, loadRun.name)
  {
    match loadRun
    case LatestRun =>
      if rootListing.None? || |Runs(rootListing.value)| == 0 then Failure(ValueError(NoRunsPrefix + root))
      else
        var runs := Runs(rootListing.value);
        Success(Join(root, runs[MaxIndex(runs, Identity)]))
    case Run(name) =>
      Success(if IsAbs(name) then name else Join(root, name))
  }

  ghost predicate IsLatestRun(listing: seq<string>, g: string)
  {
    g in Runs(listing) && forall x :: x in Runs(listing) ==> LexLe(x, g)
  }

  /** The latest run is the lexicographically greatest candidate, and there is only one such. */
  lemma LatestRunIsGreatest(root: string, listing: seq<string>)
    requires RunDirectory(root, LatestRun, Some(listing)).Success?
    ensures exists g :: IsLatestRun(listing, g) && RunDirectory(root, LatestRun, Some(listing)).value == Join(root, g)
    ensures forall g1, g2 :: IsLatestRun(listing, g1) && IsLatestRun(listing, g2) ==> g1 == g2
  {
    var runs := Runs(listing);
    var g := runs[MaxIndex(runs, Identity)];
    MaxIndexIsGreatest(runs, Identity);
    assert forall x :: x in runs ==> LexLe(x, g) by {
      forall x | x in runs
        ensures LexLe(x, g)
      {
        var j :| 0 <= j < |runs| && runs[j] == x;
        assert Identity(runs[j]) == x;
      }
    }
    assert IsLatestRun(listing, g);
    forall g1, g2 | IsLatestRun(listing, g1) && IsLatestRun(listing, g2)
      ensures g1 == g2
    {
      LexLeAntisymmetric(g1, g2);
    }
  }

  /**
   * The checkpoint file: with `checkpoint == -1`, the name containing `"model"` with the greatest
   * padded key; otherwise `model_<checkpoint>.pt` whatever the directory holds.
   */
  function ModelChoice(runDir: string, checkpoint: int, listing: Option<seq<string>>): (r: Result<string, LoadError>)
    ensures checkpoint == -1 && listing.None? ==> r == Failure(FileNotFound(runDir))
    ensures checkpoint == -1 && listing.Some? ==>
      (r.Failure? <==> forall x :: x in listing.value ==> !Contains(x, "model"))
    ensures checkpoint == -1 && listing.Some? && r.Failure? ==> r.error == IndexError
    ensures checkpoint == -1 && r.Success? ==> r.value in listing.value && Contains(r.value, "model")
    ensures checkpoint != -1 ==> r == Success(CheckpointFile(checkpoint))
    ensures checkpoint != -1 ==> r.Success? && |r.value| >= 10 && ParseInt(r.value[6..|r.value| - 3]) == checkpoint
  {
    if checkpoint == -1 then
      match listing
      case None => Failure(FileNotFound(runDir))
      case Some(names) =>
        var models := ModelFiles(names);
        if |models| == 0 then
          assert forall x :: x in names ==> !Contains(x, "model");
          Failure(IndexError)
        else
          assert models[0] in names;
          Success(models[MaxIndex(models, ModelKey)])
    else
      var f := CheckpointFile(checkpoint);
      assert f[6..|f| - 3] == IntToString(checkpoint);
      IntToStringRoundTrip(checkpoint);
      Success(f)
  }

  /**
   * With `checkpoint == -1` the chosen file has the greatest padded key among the model files,
   * and every model file listed after it has a strictly smaller key.
   */
  lemma LatestModelIsGreatest(runDir: string, listing: seq<string>)
    requires ModelChoice(runDir, -1, Some(listing)).Success?
    ensures exists k: nat ::
      LastGreatest(ModelFiles(listing), ModelKey, k) && ModelFiles(listing)[k] == ModelChoice(runDir, -1, Some(listing)).value
  {
    var models := ModelFiles(listing);
    var k := MaxIndex(models, ModelKey);
    assert ModelChoice(runDir, -1, Some(listing)) == Success(models[k]);
    MaxIndexIsGreatest(models, ModelKey);
  }

  /** `get_load_path(root, load_run, checkpoint)`. */
  function LoadPath(root: string, loadRun: RunSelector, checkpoint: int, listdir: string -> Option<seq<string>>)
    : Result<string, LoadError>
  {
    match RunDirectory(root, loadRun, listdir(root))
    case Failure(e) => Failure(e)
    case Success(dir) =>
      match ModelChoice(dir, checkpoint, listdir(dir))
      case Failure(e) => Failure(e)
      case Success(model) => Success(Join(dir, model))
  }

  /**
   * The loader's path choice, with the sort-then-take-last replaced by a scan: the run
   * directory first, then the checkpoint file inside it.
   */
  method GetLoadPath(root: string, loadRun: RunSelector, checkpoint: int, listdir: string -> Option<seq<string>>)
    returns (r: Result<string, LoadError>)
    ensures r == LoadPath(root, loadRun, checkpoint, listdir)
  {
    var runDir: string;
    match loadRun {
      case LatestRun =>
        var listing := listdir(root);
        if listing.None? {
          return Failure(ValueError(NoRunsPrefix + root));
        }
        var runs := RemoveFirst(listing.value, "exported");
        if |runs| == 0 {
          return Failure(ValueError(NoRunsPrefix + root));
        }
        var k := SelectLast(runs, Identity);
        runDir := Join(root, runs[k]);
      case Run(name) =>
        runDir := if IsAbs(name) then name else Join(root, name);
    }
    var model: string;
    if checkpoint == -1 {
      var listing := listdir(runDir);
      if listing.None? {
        return Failure(FileNotFound(runDir));
      }
      var models := ModelFiles(listing.value);
      if |models| == 0 {
        return Failure(IndexError);
      }
      var k := SelectLast(models, ModelKey);
      model := models[k];
    } else {
      model := CheckpointFile(checkpoint);
    }
    r := Success(Join(runDir, model));
  }

  // ---------------------------------------------------------------------------------------
  // update_cfg_from_args

  /** The environment configuration fields the command line can override. */
  class EnvCfg {
    var numEnvs: int
    var seed: int
    var recoverMode: bool

    constructor(numEnvs: int, seed: int, recoverMode: bool)
      ensures this.numEnvs == numEnvs && this.seed == seed && this.recoverMode == recoverMode
    {
      this.numEnvs := numEnvs;
      this.seed := seed;
      this.recoverMode := recoverMode;
    }
  }

  /** The training configuration fields the command line can override (the runner's among them). */
  class TrainCfg {
    var seed: int
    var maxIterations: int
    var resume: bool
    var experimentName: string
    var runName: string
    var loadRun: RunSelector
    var checkpoint: int

    constructor(seed: int, maxIterations: int, resume: bool, experimentName: string, runName: string,
                loadRun: RunSelector, checkpoint: int)
      ensures this.seed == seed && this.maxIterations == maxIterations && this.resume == resume
      ensures this.experimentName == experimentName && this.runName == runName
      ensures this.loadRun == loadRun && this.checkpoint == checkpoint
    {
      this.seed := seed;
      this.maxIterations := maxIterations;
      this.resume := resume;
      this.experimentName := experimentName;
      this.runName := runName;
      this.loadRun := loadRun;
      this.checkpoint := checkpoint;
    }
  }

  /**
   * The parsed command line. Absent options are `None`; `resume` and `recoverMode` are flags,
   * false unless given.
   */
  datatype Args = Args(
    numEnvs: Option<int>,
    seed: Option<int>,
    recoverMode: bool,
    maxIterations: Option<int>,
    resume: bool,
    experimentName: Option<string>,
    runName: Option<string>,
    loadRun: Option<string>,
    checkpoint: Option<int>)

  /** The value after an override that only applies when the option was given. */
  function Override<T>(current: T, given: Option<T>): (r: T)
    ensures given.None? ==> r == current
    ensures given.Some? ==> r == given.value
  {
    if given.Some? then given.value else current
  }

  /**
   * The environment half: the number of environments and the seed when given. A flag is never
   * None, so `recoverMode` is always taken from the command line.
   */
  method UpdateEnvCfg(envCfg: EnvCfg, args: Args)
    modifies envCfg
    ensures envCfg.numEnvs == Override(old(envCfg.numEnvs), args.numEnvs)
    ensures envCfg.seed == Override(old(envCfg.seed), args.seed)
    ensures envCfg.recoverMode == args.recoverMode
  {
    if args.numEnvs.Some? {
      envCfg.numEnvs := args.numEnvs.value;
    }
    if args.seed.Some? {
      envCfg.seed := args.seed.value;
    }
    envCfg.recoverMode := args.recoverMode;
  }

  /** The training half: the seed when given, then the runner's fields. */
  method UpdateTrainCfg(trainCfg: TrainCfg, args: Args)
    modifies trainCfg
    ensures trainCfg.seed == Override(old(trainCfg.seed), args.seed)
    ensures trainCfg.maxIterations == Override(old(trainCfg.maxIterations), args.maxIterations)
    ensures trainCfg.resume == (args.resume || old(trainCfg.resume))
    ensures trainCfg.experimentName == Override(old(trainCfg.experimentName), args.experimentName)
    ensures trainCfg.runName == Override(old(trainCfg.runName), args.runName)
    ensures trainCfg.loadRun == if args.loadRun.Some? then Run(args.loadRun.value) else old(trainCfg.loadRun)
    ensures trainCfg.checkpoint == Override(old(trainCfg.checkpoint), args.checkpoint)
  {
    if args.seed.Some? {
      trainCfg.seed := args.seed.value;
    }
    UpdateRunnerCfg(trainCfg, args);
  }

  /** The runner's fields: each one whose option was given; `resume` only when the flag is set. */
  method UpdateRunnerCfg(trainCfg: TrainCfg, args: Args)
    modifies trainCfg
    ensures trainCfg.seed == old(trainCfg.seed)
    ensures trainCfg.maxIterations == Override(old(trainCfg.maxIterations), args.maxIterations)
    ensures trainCfg.resume == (args.resume || old(trainCfg.resume))
    ensures trainCfg.experimentName == Override(old(trainCfg.experimentName), args.experimentName)
    ensures trainCfg.runName == Override(old(trainCfg.runName), args.runName)
    ensures trainCfg.loadRun == if args.loadRun.Some? then Run(args.loadRun.value) else old(trainCfg.loadRun)
    ensures trainCfg.checkpoint == Override(old(trainCfg.checkpoint), args.checkpoint)
  {
    if args.maxIterations.Some? {
      trainCfg.maxIterations := args.maxIterations.value;
    }
    if args.resume {
      trainCfg.resume := args.resume;
    }
    if args.experimentName.Some? {
      trainCfg.experimentName := args.experimentName.value;
    }
    if args.runName.Some? {
      trainCfg.runName := args.runName.value;
    }
    if args.loadRun.Some? {
      trainCfg.loadRun := Run(args.loadRun.value);
    }
    if args.checkpoint.Some? {
      trainCfg.checkpoint := args.checkpoint.value;
    }
  }

  /**
   * `update_cfg_from_args`: each configuration that is present gets its overrides, a missing one
   * is passed through untouched, and a given seed lands in both.
   */
  method UpdateCfgFromArgs(envCfg: EnvCfg?, trainCfg: TrainCfg?, args: Args) returns (envOut: EnvCfg?, trainOut: TrainCfg?)
    modifies envCfg, trainCfg
    ensures envOut == envCfg && trainOut == trainCfg
    ensures envCfg != null ==>
      && envCfg.numEnvs == Override(old(envCfg.numEnvs), args.numEnvs)
      && envCfg.seed == Override(old(envCfg.seed), args.seed)
      && envCfg.recoverMode == args.recoverMode
    ensures trainCfg != null ==>
      && trainCfg.seed == Override(old(trainCfg.seed), args.seed)
      && trainCfg.maxIterations == Override(old(trainCfg.maxIterations), args.maxIterations)
      && trainCfg.resume == (args.resume || old(trainCfg.resume))
      && trainCfg.experimentName == Override(old(trainCfg.experimentName), args.experimentName)
      && trainCfg.runName == Override(old(trainCfg.runName), args.runName)
      && trainCfg.loadRun == (if args.loadRun.Some? then Run(args.loadRun.value) else old(trainCfg.loadRun))
      && trainCfg.checkpoint == Override(old(trainCfg.checkpoint), args.checkpoint)
    ensures envCfg != null && trainCfg != null && args.seed.Some? ==> envCfg.seed == trainCfg.seed == args.seed.value
  {
    if envCfg != null {
      UpdateEnvCfg(envCfg, args);
    }
    if trainCfg != null {
      UpdateTrainCfg(trainCfg, args);
    }
    envOut, trainOut := envCfg, trainCfg;
  }

  // ---------------------------------------------------------------------------------------
  // The exported policy

  const ExportedOneStepObs: nat := 45
  const EncoderColumns: nat := 19

  /** `s[:n]` in Python: stops at the end of a shorter sequence. */
  function Take(s: seq<real>, n: nat): (r: seq<real>)
    ensures |r| == if n <= |s| then n else |s|
  {
    s[..if n <= |s| then n else |s|]
  }

  /** `s[n:]` in Python: empty past the end. */
  function Drop(s: seq<real>, n: nat): (r: seq<real>)
    ensures |r| == if n <= |s| then |s| - n else 0
  {
    s[if n <= |s| then n else |s|..]
  }

  /**
   * The exported actor's input for one history row: the first 45 history entries, then encoder
   * columns 0..2 (velocity), then columns 3..18 (latent) passed through `normalize`.
   */
  function ExporterInput(history: seq<real>, encoded: seq<real>, normalize: seq<real> -> seq<real>): (r: seq<real>)
    ensures |history| >= ExportedOneStepObs && |encoded| >= EncoderColumns && |normalize(encoded[3..EncoderColumns])| == LatentDim
      ==> |r| == ExportedOneStepObs + VelocityDim + LatentDim
  {
    var parts := Take(encoded, EncoderColumns);
    var vel := Take(parts, 3);
    var z := Drop(parts, 3);
    Take(history, ExportedOneStepObs) + vel + normalize(z)
  }

  /** `PolicyExporterHIM.forward` for one history row. */
  function ExportedPolicy(actor: seq<real> -> seq<real>, history: seq<real>, encoded: seq<real>,
                          normalize: seq<real> -> seq<real>): seq<real>
  {
    actor(ExporterInput(history, encoded, normalize))
  }

  /**
   * When the actor-critic reads 45-entry observations and its estimator yields the encoder's
   * first three columns and the normalised next sixteen, the exported policy gives the same
   * action as `act_inference`: both build the same actor input.
   */
  lemma ExporterMatchesActInference(ac: HimActorCritic, history: seq<real>, encoded: seq<real>,
                                    normalize: seq<real> -> seq<real>)
    requires ac.numOneStepObs == ExportedOneStepObs
    requires |history| >= ExportedOneStepObs && |encoded| >= EncoderColumns
    requires ac.estimator(history) == (encoded[..3], normalize(encoded[3..EncoderColumns]))
    ensures ExporterInput(history, encoded, normalize) == ac.ActorInputOf(history)
    ensures ExportedPolicy(ac.actor, history, encoded, normalize) == ac.ActInference([history])[0]
  {
    var parts := Take(encoded, EncoderColumns);
    assert Take(parts, 3) == encoded[..3];
    assert Drop(parts, 3) == encoded[3..EncoderColumns];
  }
}
