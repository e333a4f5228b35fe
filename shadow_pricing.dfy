/** Choosing the latest shadow-pricing output files (sandag_rsm/utility.py): the iteration number
    found in a file name, the file name stripped of its folder, and the pick of the file with the
    greatest (number, name) key among those a folder listing returned. */
module ShadowPricing {
  import opened Outcomes

  // -----------------------------------------------------------------------------------------------
  // Digits and decimal numerals

  /** A decimal digit, as `\d` matches it in an ASCII file name. */
  predicate IsDigit(c: char) {
    '0' <= c <= '9'
  }

  predicate AllDigits(s: string) {
    forall i | 0 <= i < |s| :: IsDigit(s[i])
  }

  predicate NoDigits(s: string) {
    forall i | 0 <= i < |s| :: !IsDigit(s[i])
  }

  function DigitValue(c: char): nat
    requires IsDigit(c)
  {
    c as int - '0' as int
  }

  /** The value `int` gives a run of digits, most significant first; it is zero exactly when
      every digit is '0'. */
  function DecimalValue(ds: string): (v: nat)
    requires AllDigits(ds)
    ensures v == 0 <==> forall i | 0 <= i < |ds| :: ds[i] == '0'
  {
    if ds == [] then 0 else DecimalValue(ds[..|ds| - 1]) * 10 + DigitValue(ds[|ds| - 1])
  }

  function DigitChar(d: nat): (c: char)
    requires d < 10
    ensures IsDigit(c) && DigitValue(c) == d
  {
    ('0' as int + d) as char
  }

  /** The decimal numeral of `n`, as `str` writes it: no leading zero. */
  function Numeral(n: nat): (s: string)
    ensures AllDigits(s) && |s| > 0
    ensures |s| > 1 ==> s[0] != '0'
  {
    if n < 10 then [DigitChar(n)] else Numeral(n / 10) + [DigitChar(n % 10)]
  }

  /** Reading back a numeral gives the number written. */
  lemma {:induction false} NumeralValue(n: nat)
    ensures DecimalValue(Numeral(n)) == n
  {
    if n >= 10 {
      var s := Numeral(n);
      assert s[..|s| - 1] == Numeral(n / 10);
      NumeralValue(n / 10);
    }
  }

  /** A leading zero does not change the value of a run of digits: "007" is 7. */
  lemma {:induction false} LeadingZero(ds: string)
    requires AllDigits(ds)
    ensures AllDigits(['0'] + ds) && DecimalValue(['0'] + ds) == DecimalValue(ds)
  {
    var z := ['0'] + ds;
    if ds != [] {
      assert z[..|z| - 1] == ['0'] + ds[..|ds| - 1];
      LeadingZero(ds[..|ds| - 1]);
    }
  }

  // -----------------------------------------------------------------------------------------------
  // extract_number_in_filename

  /** Position of the first digit of `s`, or `|s|` when there is none. */
  function FirstDigit(s: string): (i: nat)
    ensures i <= |s| && NoDigits(s[..i])
    ensures i < |s| ==> IsDigit(s[i])
  {
    if s == [] then 0
    else if IsDigit(s[0]) then 0
    else
      var i := 1 + FirstDigit(s[1..]);
      assert s[..i] == [s[0]] + s[1..][..i - 1];
      i
  }

  /** Length of the run of digits `s` starts with. */
  function DigitRun(s: string): (n: nat)
    ensures n <= |s| && AllDigits(s[..n])
    ensures n < |s| ==> !IsDigit(s[n])
  {
    if s == [] || !IsDigit(s[0]) then 0
    else
      var n := 1 + DigitRun(s[1..]);
      assert s[..n] == [s[0]] + s[1..][..n - 1];
      n
  }

  /** `re.findall("\d+", s)`: the maximal runs of digits of `s`, left to right. */
  function DigitRuns(s: string): (runs: seq<string>)
    ensures forall k | 0 <= k < |runs| :: |runs[k]| > 0 && AllDigits(runs[k])
    decreases |s|
  {
    if s == [] then []
    else if !IsDigit(s[0]) then DigitRuns(s[1..])
    else
      var n := DigitRun(s);
      [s[..n]] + DigitRuns(s[n..])
  }

  /** `extract_number_in_filename`: the value of the first run of digits of `f`, or -1 when `f` has
      no digit, paired with `f` itself. */
  function ExtractNumberInFilename(f: string): (key: (int, string))
    ensures key.1 == f && key.0 >= -1
  {
    var runs := DigitRuns(f);
    (if |runs| > 0 then DecimalValue(runs[0]) else -1, f)
  }

  /** The first run `re.findall` reports starts at the first digit and runs to the first non-digit
      after it; there is none exactly when `s` has no digit. */
  lemma {:induction false} FirstRun(s: string)
    ensures |DigitRuns(s)| > 0 <==> FirstDigit(s) < |s|
    ensures FirstDigit(s) < |s| ==>
      var i := FirstDigit(s);
      DigitRuns(s)[0] == s[i..i + DigitRun(s[i..])]
  {
    if s != [] && !IsDigit(s[0]) {
      FirstRun(s[1..]);
      var i := FirstDigit(s);
      if i < |s| {
        assert s[1..][i - 1..] == s[i..];
        assert s[1..][i - 1..i - 1 + DigitRun(s[i..])] == s[i..i + DigitRun(s[i..])];
      }
    }
  }

  /** Position `i` is the first digit when it holds a digit and nothing before it does. */
  lemma {:induction false} FirstDigitAt(s: string, i: nat)
    requires i < |s| && NoDigits(s[..i]) && IsDigit(s[i])
    ensures FirstDigit(s) == i
  {
    if i > 0 {
      assert s[..i][0] == s[0];
      assert s[1..][..i - 1] == s[..i][1..];
      FirstDigitAt(s[1..], i - 1);
    }
  }

  /** `s` starts with exactly `n` digits when its first `n` characters are digits and the next one,
      if any, is not. */
  lemma {:induction false} DigitRunAt(s: string, n: nat)
    requires n <= |s| && AllDigits(s[..n])
    requires n < |s| ==> !IsDigit(s[n])
    ensures DigitRun(s) == n
  {
    if n > 0 {
      assert s[..n][0] == s[0];
      assert s[1..][..n - 1] == s[..n][1..];
      DigitRunAt(s[1..], n - 1);
    }
  }

  /** A string of non-digits, then the digits `f[i..j]`, then a non-digit or nothing: the number is
      the value of `f[i..j]`, whatever follows. */
  lemma NumberIsFirstRun(f: string, i: nat, j: nat)
    requires i < j <= |f| && NoDigits(f[..i]) && AllDigits(f[i..j])
    requires j < |f| ==> !IsDigit(f[j])
    ensures ExtractNumberInFilename(f).0 == DecimalValue(f[i..j])
  {
    assert f[i..j][0] == f[i];
    FirstDigitAt(f, i);
    assert f[i..][..j - i] == f[i..j];
    if j < |f| {
      assert f[i..][j - i] == f[j];
    }
    DigitRunAt(f[i..], j - i);
    FirstRun(f);
  }

  /** The number is -1 exactly when the name has no digit. */
  lemma NoNumber(f: string)
    ensures ExtractNumberInFilename(f).0 == -1 <==> NoDigits(f)
  {
    FirstRun(f);
    var i := FirstDigit(f);
    if i == |f| {
      assert f[..i] == f;
    } else {
      assert !NoDigits(f) by { assert IsDigit(f[i]); }
    }
  }

  /** The iteration number an output name was written with is the one read back from it, when the
      text around it has no digit to take its place: `ShadowPricingOutput_work` + "12" + `.csv`
      gives 12. */
  lemma IterationRoundTrip(prefix: string, n: nat, suffix: string)
    requires NoDigits(prefix)
    requires suffix != [] ==> !IsDigit(suffix[0])
    ensures ExtractNumberInFilename(prefix + Numeral(n) + suffix) == (n, prefix + Numeral(n) + suffix)
  {
    var f := prefix + Numeral(n) + suffix;
    var i, j := |prefix|, |prefix| + |Numeral(n)|;
    assert f[..i] == prefix;
    assert f[i..j] == Numeral(n);
    if j < |f| {
      assert f[j] == suffix[0];
    }
    NumberIsFirstRun(f, i, j);
    NumeralValue(n);
  }

  // -----------------------------------------------------------------------------------------------
  // Stripping the folder: os.path.split(x)[1]

  /** The last component of path `p`: what follows its last '/', all of `p` when it has none. */
  function Basename(p: string): (name: string)
    ensures '/' !in name && |name| <= |p| && name == p[|p| - |name|..]
    ensures |name| < |p| ==> p[|p| - |name| - 1] == '/'
  {
    if p == [] || p[|p| - 1] == '/' then []
    else
      var init := p[..|p| - 1];
      var name := Basename(init) + [p[|p| - 1]];
      assert init[|init| - |Basename(init)|..] + [p[|p| - 1]] == p[|p| - |name|..];
      name
  }

  /** One more character after a path: a '/' empties its last component, any other character
      extends it. */
  lemma BasenameSnoc(p: string, c: char)
    ensures Basename(p + [c]) == if c == '/' then [] else Basename(p) + [c]
  {
    assert (p + [c])[..|p|] == p;
  }

  /** The name a folder listing joined to its folder is the name given back. */
  lemma {:induction false} BasenameOfJoin(folder: string, name: string)
    requires '/' !in name
    ensures Basename(folder + "/" + name) == name
  {
    if name == [] {
      assert folder + "/" + name == folder + ['/'];
      BasenameSnoc(folder, '/');
    } else {
      var init, last := name[..|name| - 1], name[|name| - 1];
      assert name == init + [last];
      BasenameOfJoin(folder, init);
      assert folder + "/" + name == (folder + "/" + init) + [last];
      BasenameSnoc(folder + "/" + init, last);
    }
  }

  /** A name without '/' is its own last component. */
  lemma {:induction false} BasenameOfName(name: string)
    requires '/' !in name
    ensures Basename(name) == name
  {
    if name != [] {
      var init := name[..|name| - 1];
      BasenameOfName(init);
      assert name == init + [name[|name| - 1]];
      BasenameSnoc(init, name[|name| - 1]);
    }
  }

  /** Stripping twice strips no more than once. */
  lemma BasenameIdempotent(p: string)
    ensures Basename(Basename(p)) == Basename(p)
  {
    BasenameOfName(Basename(p));
  }

  /** `[os.path.split(x)[1] for x in files]`. */
  function Basenames(files: seq<string>): seq<string> {
    seq(|files|, i requires 0 <= i < |files| => Basename(files[i]))
  }

  // -----------------------------------------------------------------------------------------------
  // The order of keys: Python compares tuples, then strings, element by element

  /** `a < b` for Python strings: code point by code point, a proper prefix first. */
  predicate StrLess(a: string, b: string)
    ensures a < b ==> StrLess(a, b)
  {
    if a == [] then b != []
    else if b == [] then false
    else if a[0] != b[0] then a[0] < b[0]
    else StrLess(a[1..], b[1..])
  }

  lemma {:induction false} StrLessIrreflexive(a: string)
    ensures !StrLess(a, a)
  {
    if a != [] {
      StrLessIrreflexive(a[1..]);
    }
  }

  lemma {:induction false} StrLessTransitive(a: string, b: string, c: string)
    requires StrLess(a, b) && StrLess(b, c)
    ensures StrLess(a, c)
  {
    if a != [] && a[0] == b[0] && b[0] == c[0] {
      StrLessTransitive(a[1..], b[1..], c[1..]);
    }
  }

  /** Two different strings are ordered one way or the other. */
  lemma {:induction false} StrLessTotal(a: string, b: string)
    ensures a == b || StrLess(a, b) || StrLess(b, a)
  {
    if a != [] && b != [] && a[0] == b[0] {
      StrLessTotal(a[1..], b[1..]);
      if a[1..] == b[1..] {
        assert a == [a[0]] + a[1..] && b == [b[0]] + b[1..];
      }
    }
  }

  /** `k1 < k2` for the (number, name) keys: the number decides, and the name only breaks a tie. */
  predicate KeyLess(k1: (int, string), k2: (int, string))
    ensures k1.0 < k2.0 ==> KeyLess(k1, k2)
    ensures k2.0 < k1.0 ==> !KeyLess(k1, k2)
  {
    k1.0 < k2.0 || (k1.0 == k2.0 && StrLess(k1.1, k2.1))
  }

  /** The key `max` compares the files by: the name itself, after the number -1 exactly when the
      name has no digit. */
  function Key(f: string): (k: (int, string))
    ensures k.1 == f && k.0 >= -1
    ensures k.0 == -1 <==> NoDigits(f)
  {
    NoNumber(f);
    ExtractNumberInFilename(f)
  }

  lemma KeyLessTransitive(a: string, b: string, c: string)
    requires KeyLess(Key(a), Key(b)) && KeyLess(Key(b), Key(c))
    ensures KeyLess(Key(a), Key(c))
  {
    if Key(a).0 == Key(b).0 == Key(c).0 {
      StrLessTransitive(a, b, c);
    }
  }

  /** Different names have different keys, so one of them is the greater. */
  lemma KeyLessTotal(a: string, b: string)
    ensures a == b || KeyLess(Key(a), Key(b)) || KeyLess(Key(b), Key(a))
  {
    StrLessTotal(a, b);
  }

  lemma KeyLessIrreflexive(a: string)
    ensures !KeyLess(Key(a), Key(a))
  {
    StrLessIrreflexive(a);
  }

  // -----------------------------------------------------------------------------------------------
  // max(files, key=extract_number_in_filename)

  /** Why `max` can fail: it was given no file. */
  datatype SelectError = EmptySequence

  /** `x` is one of `files` and no file has a greater key. */
  ghost predicate IsGreatest(files: seq<string>, x: string) {
    x in files && forall y | y in files :: !KeyLess(Key(x), Key(y))
  }

  /** The scan `max` makes: the first file is the best so far, and a later file replaces it only if
      its key is strictly greater. The scan ends on one of the files it was given. */
  function MaxFrom(best: string, rest: seq<string>): (m: string)
    ensures m == best || m in rest
    decreases |rest|
  {
    if rest == [] then best
    else MaxFrom(if KeyLess(Key(best), Key(rest[0])) then rest[0] else best, rest[1..])
  }

  /** `max(files, key=extract_number_in_filename)`; an empty list is an error. */
  function MaxByKey(files: seq<string>): (r: Result<string, SelectError>)
    ensures r.Err? <==> files == []
    ensures r.Ok? ==> r.value in files
  {
    if files == [] then Err(EmptySequence) else Ok(MaxFrom(files[0], files[1..]))
  }

  /** The scan ends on a file no file beats. */
  lemma {:induction false} MaxFromGreatest(best: string, rest: seq<string>)
    ensures IsGreatest([best] + rest, MaxFrom(best, rest))
    decreases |rest|
  {
    if rest != [] {
      var next := if KeyLess(Key(best), Key(rest[0])) then rest[0] else best;
      var kept := [next] + rest[1..];
      MaxFromGreatest(next, rest[1..]);
      var m := MaxFrom(best, rest);
      assert m == MaxFrom(next, rest[1..]);
      assert !KeyLess(Key(m), Key(next)) by { assert next in kept; }
      forall y | y in [best] + rest ensures !KeyLess(Key(m), Key(y)) {
        if y !in kept {
          KeyLessTotal(best, rest[0]);
          assert KeyLess(Key(y), Key(next));
          KeyLessBelow(m, y, next);
        }
      }
      assert m in [best] + rest by {
        assert m in kept;
      }
    } else {
      KeyLessIrreflexive(best);
    }
  }

  /** Nothing beaten by a file that `m` is not below is above `m`. */
  lemma KeyLessBelow(m: string, y: string, x: string)
    requires KeyLess(Key(y), Key(x)) && !KeyLess(Key(m), Key(x))
    ensures !KeyLess(Key(m), Key(y))
  {
    if KeyLess(Key(m), Key(y)) {
      KeyLessTransitive(m, y, x);
    }
  }

  /** At most one file of a list can be the greatest. */
  lemma GreatestUnique(files: seq<string>, x: string, y: string)
    requires IsGreatest(files, x) && IsGreatest(files, y)
    ensures x == y
  {
    KeyLessTotal(x, y);
  }

  /** A non-empty list has a greatest file, and `max` returns it. */
  lemma MaxByKeyGreatest(files: seq<string>)
    requires files != []
    ensures IsGreatest(files, MaxByKey(files).value)
  {
    assert files == [files[0]] + files[1..];
    MaxFromGreatest(files[0], files[1..]);
  }

  /** The pick does not depend on the order in which the folder listing returns the files. */
  lemma MaxByKeyOrderFree(files: seq<string>, listed: seq<string>)
    requires files != [] && multiset(files) == multiset(listed)
    ensures MaxByKey(files) == MaxByKey(listed)
  {
    assert listed != [] by {
      assert files[0] in multiset(listed);
    }
    MaxByKeyGreatest(files);
    MaxByKeyGreatest(listed);
    var a, b := MaxByKey(files).value, MaxByKey(listed).value;
    forall y | y in files ensures y in listed {
      assert y in multiset(listed);
    }
    forall y | y in listed ensures y in files {
      assert y in multiset(files);
    }
    GreatestUnique(files, a, b);
  }

  // -----------------------------------------------------------------------------------------------
  // get_shadow_pricing_files

  /** `get_shadow_pricing_files`, given the work and school file listings of the folder: the name of
      the work file and of the school file with the greatest (number, name) key; the work pick is
      made first, so an empty work listing is the error reported. */
  function GetShadowPricingFiles(workFiles: seq<string>, schoolFiles: seq<string>): (r: Result<(string, string), SelectError>)
    ensures r.Ok? <==> workFiles != [] && schoolFiles != []
    ensures r.Ok? ==> r.value.0 in Basenames(workFiles) && r.value.1 in Basenames(schoolFiles)
  {
    var work :- MaxByKey(Basenames(workFiles));
    var school :- MaxByKey(Basenames(schoolFiles));
    Ok((work, school))
  }

  /** Both picks succeed exactly when both listings have a file, and each then names the file of
      its listing, stripped of its folder, with the greatest key. */
  lemma ShadowPricingPicks(workFiles: seq<string>, schoolFiles: seq<string>)
    ensures GetShadowPricingFiles(workFiles, schoolFiles).Ok? <==> workFiles != [] && schoolFiles != []
    ensures GetShadowPricingFiles(workFiles, schoolFiles).Ok? ==>
      && IsGreatest(Basenames(workFiles), GetShadowPricingFiles(workFiles, schoolFiles).value.0)
      && IsGreatest(Basenames(schoolFiles), GetShadowPricingFiles(workFiles, schoolFiles).value.1)
  {
    if workFiles != [] && schoolFiles != [] {
      MaxByKeyGreatest(Basenames(workFiles));
      MaxByKeyGreatest(Basenames(schoolFiles));
    }
  }
}
