/**
 * Naming of the run directory (`increment_path` and the `os.path.join` that
 * feeds it). The filesystem is abstracted as the list of path strings that
 * exist; paths are taken as already normalised, so `str(Path(p)) == p`.
 */
module RunDir {
  import opened Wrappers
  import opened Numerals

  /** `os.path.join(a, b)` for two POSIX paths. */
  function Join(a: string, b: string): (r: string)
    ensures |b| <= |r| && r[|r| - |b|..] == b
    ensures |b| > 0 && b[0] == '/' ==> r == b
    ensures (|b| == 0 || b[0] != '/') ==> a <= r
  {
    if |b| > 0 && b[0] == '/' then b
    else if a == [] || a[|a| - 1] == '/' then a + b
    else a + "/" + b
  }

  /** The final component of a path (`PurePath.name`): everything after its last '/'. */
  function Name(path: string): (r: string)
    ensures |r| <= |path| && r == path[|path| - |r|..]
    ensures '/' !in r
    ensures |r| < |path| ==> path[|path| - |r| - 1] == '/'
  {
    if path == [] || path[|path| - 1] == '/' then []
    else Name(path[..|path| - 1]) + [path[|path| - 1]]
  }

  /** Index of the last occurrence of `c` in `s` (`str.rfind`), -1 when there is none. */
  function LastIndexOf(s: string, c: char): (k: int)
    ensures -1 <= k < |s|
    ensures k >= 0 ==> s[k] == c
    ensures forall j :: k < j < |s| ==> s[j] != c
  {
    if s == [] then -1
    else if s[|s| - 1] == c then |s| - 1
    else LastIndexOf(s[..|s| - 1], c)
  }

  /** `PurePath.stem`: the final component without its last suffix; a leading or trailing dot is no suffix. */
  function Stem(path: string): (r: string)
    ensures r <= Name(path)
  {
    var name := Name(path);
    var k := LastIndexOf(name, '.');
    if 0 < k < |name| - 1 then name[..k] else name
  }

  /**
   * `glob.glob(path + "*")`: the existing names that extend `path` inside its
   * final component (`*` matches no '/').
   */
  function Glob(existing: seq<string>, path: string): seq<string> {
    if existing == [] then []
    else
      var d := existing[|existing| - 1];
      Glob(existing[..|existing| - 1], path) + (if path <= d && '/' !in d[|path|..] then [d] else [])
  }

  /** The glob finds exactly the existing names that extend `path` within its final component. */
  lemma {:induction false} GlobMembership(existing: seq<string>, path: string)
    ensures forall d :: d in Glob(existing, path) <==> d in existing && path <= d && '/' !in d[|path|..]
  {
    if existing != [] {
      var init := existing[..|existing| - 1];
      GlobMembership(init, path);
      assert existing == init + [existing[|existing| - 1]];
    }
  }

  /** `max(i)` for a non-empty list. */
  function Max(s: seq<nat>): nat
    requires s != []
  {
    if |s| == 1 then s[0]
    else
      var m := Max(s[..|s| - 1]);
      if s[|s| - 1] > m then s[|s| - 1] else m
  }

  /** The maximum bounds every element and is one of them. */
  lemma {:induction false} MaxIsMaximum(s: seq<nat>)
    requires s != []
    ensures forall k :: 0 <= k < |s| ==> s[k] <= Max(s)
    ensures Max(s) in s
  {
    if |s| > 1 {
      var init := s[..|s| - 1];
      MaxIsMaximum(init);
      assert s == init + [s[|s| - 1]];
    }
  }

  /** `n = max(i) + 1 if i else 2`. */
  function NextNumber(suffixes: seq<nat>): nat {
    if suffixes == [] then 2 else Max(suffixes) + 1
  }

  // ---------------------------------------------------------------------
  // The code as written: `re.search(stem + r"(\d+)", d)`, unanchored
  // ---------------------------------------------------------------------

  /** The pattern `stem(\d+)` can start at position `p` of `d`. */
  predicate MatchAt(stem: string, d: string, p: nat) {
    p + |stem| < |d| && d[p..p + |stem|] == stem && IsDigit(d[p + |stem|])
  }

  /** The leftmost position at or after `k` where the pattern can start. */
  function FirstMatchFrom(stem: string, d: string, k: nat): (r: Option<nat>)
    ensures r.Some? ==> k <= r.value && MatchAt(stem, d, r.value)
    decreases |d| - k
  {
    if k + |stem| >= |d| then None
    else if MatchAt(stem, d, k) then Some(k)
    else FirstMatchFrom(stem, d, k + 1)
  }

  /** The scan finds the leftmost match at or after `k`, and finds none only when there is none. */
  lemma {:induction false} FirstMatchFromLeftmost(stem: string, d: string, k: nat)
    ensures FirstMatchFrom(stem, d, k).Some? ==>
              forall q :: k <= q < FirstMatchFrom(stem, d, k).value ==> !MatchAt(stem, d, q)
    ensures FirstMatchFrom(stem, d, k).None? ==> forall q :: k <= q ==> !MatchAt(stem, d, q)
    decreases |d| - k
  {
    if k + |stem| < |d| && !MatchAt(stem, d, k) {
      FirstMatchFromLeftmost(stem, d, k + 1);
    }
  }

  /** `int(m.groups()[0])` for `m = re.search(stem + r"(\d+)", d)`, or None when `m` is None. */
  function SearchSuffix(stem: string, d: string): Option<nat> {
    match FirstMatchFrom(stem, d, 0)
    case None => None
    case Some(p) => Some(ParseDecimal(DigitRun(d[p + |stem|..])))
  }

  /** `re.search` fails exactly when the pattern matches nowhere in `d`. */
  lemma SearchSuffixNone(stem: string, d: string)
    ensures SearchSuffix(stem, d).None? <==> forall q :: !MatchAt(stem, d, q)
  {
    FirstMatchFromLeftmost(stem, d, 0);
  }

  /** `matches = [re.search(stem + r"(\d+)", d) for d in dirs]`, each match read as its number. */
  function Matches(stem: string, dirs: seq<string>): (ms: seq<Option<nat>>)
    ensures |ms| == |dirs|
  {
    seq(|dirs|, k requires 0 <= k < |dirs| => SearchSuffix(stem, dirs[k]))
  }

  /** `[int(m.groups()[0]) for m in matches if m]`: the numbers of the successful matches, in order. */
  function Found(ms: seq<Option<nat>>): seq<nat> {
    if ms == [] then []
    else Found(ms[..|ms| - 1]) + (match ms[|ms| - 1] case Some(n) => [n] case None => [])
  }

  /** The number of every successful match is found... */
  lemma {:induction false} FoundInclude(ms: seq<Option<nat>>, k: nat)
    requires k < |ms| && ms[k].Some?
    ensures ms[k].value in Found(ms)
  {
    var init := ms[..|ms| - 1];
    if k < |ms| - 1 {
      assert init[k] == ms[k];
      FoundInclude(init, k);
    }
  }

  /** ... and every number found comes from a successful match, the `k`-th. */
  lemma {:induction false} FoundSource(ms: seq<Option<nat>>, n: nat) returns (k: nat)
    requires n in Found(ms)
    ensures k < |ms| && ms[k] == Some(n)
  {
    var init := ms[..|ms| - 1];
    if ms[|ms| - 1] == Some(n) {
      k := |ms| - 1;
    } else {
      k := FoundSource(init, n);
    }
  }

  /** Line 86: the new number is larger than the number of every successful match. */
  lemma NextNumberAbove(ms: seq<Option<nat>>, k: nat)
    requires k < |ms| && ms[k].Some?
    ensures ms[k].value < NextNumber(Found(ms))
  {
    FoundInclude(ms, k);
    MaxIsMaximum(Found(ms));
  }

  /** Line 86: the new number is 2 when nothing matched. */
  lemma NextNumberDefault(ms: seq<Option<nat>>)
    requires forall k :: 0 <= k < |ms| ==> ms[k].None?
    ensures NextNumber(Found(ms)) == 2
  {
    var s := Found(ms);
    if s != [] {
      var k := FoundSource(ms, s[0]);
    }
  }

  /** Line 86: when something matched, the new number is one more than the number of a match, the `j`-th. */
  lemma NextNumberOfMatch(ms: seq<Option<nat>>, k: nat) returns (j: nat)
    requires k < |ms| && ms[k].Some?
    ensures j < |ms| && ms[j] == Some(NextNumber(Found(ms)) - 1)
  {
    var s := Found(ms);
    FoundInclude(ms, k);
    MaxIsMaximum(s);
    j := FoundSource(ms, Max(s));
  }

  /** `increment_path(path, exist_ok)` exactly as the source computes it. */
  function IncrementPathAsWritten(path: string, existing: seq<string>, existOk: bool): (r: string)
    ensures path !in existing || existOk ==> r == path
    ensures path in existing && !existOk ==>
      r == path + Decimal(NextNumber(Found(Matches(Stem(path), Glob(existing, path)))))
  {
    if (path in existing && existOk) || path !in existing then path
    else
      var dirs := Glob(existing, path);
      var matches := Matches(Stem(path), dirs);
      path + Decimal(NextNumber(Found(matches)))
  }

  /**
   * The number the code appends: larger than every number the search reads
   * from a globbed name, 2 when it reads none, and otherwise one more than
   * a number it read.
   */
  lemma AsWrittenNumber(path: string, existing: seq<string>, n: nat)
    requires path in existing
    requires IncrementPathAsWritten(path, existing, false) == path + Decimal(n)
    ensures n >= 1
    ensures forall d, m :: d in Glob(existing, path) && SearchSuffix(Stem(path), d) == Some(m) ==> m < n
    ensures (forall d :: d in Glob(existing, path) ==> SearchSuffix(Stem(path), d).None?) ==> n == 2
    ensures forall d :: d in Glob(existing, path) && SearchSuffix(Stem(path), d).Some? ==>
              exists w :: w in Glob(existing, path) && SearchSuffix(Stem(path), w) == Some(n - 1)
  {
    AsWrittenNumberIs(path, existing, n);
    SuffixNumberAbove(Stem(path), Glob(existing, path), n);
    SuffixNumberDefault(Stem(path), Glob(existing, path), n);
    SuffixNumberFound(Stem(path), Glob(existing, path), n);
  }

  /** Line 86 over any list of globbed names: the number beats every suffix the search reads. */
  lemma SuffixNumberAbove(stem: string, dirs: seq<string>, n: nat)
    requires n == NextNumber(Found(Matches(stem, dirs)))
    ensures forall d, m :: d in dirs && SearchSuffix(stem, d) == Some(m) ==> m < n
  {
    forall d, m | d in dirs && SearchSuffix(stem, d) == Some(m) ensures m < n {
      var k :| 0 <= k < |dirs| && dirs[k] == d;
      NextNumberAbove(Matches(stem, dirs), k);
    }
  }

  /** Line 86: the number is 2 when the search reads nothing. */
  lemma SuffixNumberDefault(stem: string, dirs: seq<string>, n: nat)
    requires n == NextNumber(Found(Matches(stem, dirs)))
    ensures (forall d :: d in dirs ==> SearchSuffix(stem, d).None?) ==> n == 2
  {
    var ms := Matches(stem, dirs);
    if forall d :: d in dirs ==> SearchSuffix(stem, d).None? {
      forall k | 0 <= k < |ms| ensures ms[k].None? {
        assert dirs[k] in dirs;
      }
      NextNumberDefault(ms);
    }
  }

  /** Line 86: otherwise it is one more than a suffix the search read. */
  lemma SuffixNumberFound(stem: string, dirs: seq<string>, n: nat)
    requires n == NextNumber(Found(Matches(stem, dirs)))
    ensures forall d :: d in dirs && SearchSuffix(stem, d).Some? ==>
              exists w :: w in dirs && SearchSuffix(stem, w) == Some(n - 1)
  {
    forall d | d in dirs && SearchSuffix(stem, d).Some?
      ensures exists w :: w in dirs && SearchSuffix(stem, w) == Some(n - 1)
    {
      var k :| 0 <= k < |dirs| && dirs[k] == d;
      var j := NextNumberOfMatch(Matches(stem, dirs), k);
      assert dirs[j] in dirs;
    }
  }

  /** The numeral appended is the one line 86 computes. */
  lemma AsWrittenNumberIs(path: string, existing: seq<string>, n: nat)
    requires path in existing
    requires IncrementPathAsWritten(path, existing, false) == path + Decimal(n)
    ensures n == NextNumber(Found(Matches(Stem(path), Glob(existing, path))))
  {
    var k := NextNumber(Found(Matches(Stem(path), Glob(existing, path))));
    assert Decimal(k) == Decimal(n) by {
      assert (path + Decimal(k))[|path|..] == Decimal(k);
      assert (path + Decimal(n))[|path|..] == Decimal(n);
    }
    DecimalInjective(k, n);
  }

  /**
   * The unanchored search reads digits from an earlier component of the path:
   * with "a1/a" and "a1/a2" both existing, the "new" run directory is "a1/a2",
   * which already exists.
   */
  lemma AsWrittenReusesExistingDirectory()
    ensures IncrementPathAsWritten("a1/a", ["a1/a", "a1/a2"], false) == "a1/a2"
    ensures "a1/a2" in ["a1/a", "a1/a2"]
  {
    ExampleAsWrittenNumber();
    ExampleNames();
  }

  lemma ExampleAsWrittenNumber()
    ensures NextNumber(Found(Matches(Stem("a1/a"), Glob(["a1/a", "a1/a2"], "a1/a")))) == 2
  {
    ExampleStem();
    ExampleGlob();
    ExampleMatches("a", ["a1/a", "a1/a2"]);
    ExampleFound();
    ExampleNextNumber();
  }

  lemma ExampleNames()
    ensures "a1/a" in ["a1/a", "a1/a2"] && "a1/a2" in ["a1/a", "a1/a2"]
    ensures "a1/a" + Decimal(2) == "a1/a2"
  {
    ExampleNextNumber();
    assert ["a1/a", "a1/a2"][0] == "a1/a";
    assert ["a1/a", "a1/a2"][1] == "a1/a2";
  }

  lemma ExampleFound()
    ensures Found([Some(1), Some(1)]) == [1, 1]
    ensures Found([None, Some(2)]) == [2]
  {
    var one: seq<Option<nat>>, none: seq<Option<nat>> := [Some(1)], [None];
    assert [Some(1), Some(1)][..1] == one;
    assert [None, Some(2)][..1] == none;
    assert one[..0] == [] && none[..0] == [];
  }

  lemma ExampleNextNumber()
    ensures NextNumber([1, 1]) == 2 && Decimal(2) == "2"
  {
    assert [1, 1][..1] == [1];
    assert [1][..0] == [];
  }

  lemma ExampleStem()
    ensures Stem("a1/a") == "a"
  {
    assert Name("a1/a") == "a";
    assert LastIndexOf("a", '.') == -1;
  }

  lemma ExampleGlob()
    ensures Glob(["a1/a", "a1/a2"], "a1/a") == ["a1/a", "a1/a2"]
  {
    assert ["a1/a", "a1/a2"][..1] == ["a1/a"];
    assert ["a1/a"][..0] == [];
    assert "a1/a" <= "a1/a2";
  }

  /** The leftmost "a" followed by a digit is the directory part "a1" in both names. */
  lemma ExampleMatches(stem: string, dirs: seq<string>)
    requires stem == "a" && dirs == ["a1/a", "a1/a2"]
    ensures Matches(stem, dirs) == [Some(1), Some(1)]
  {
    ExampleSearch(dirs[0]);
    ExampleSearch(dirs[1]);
  }

  lemma ExampleSearch(d: string)
    requires d == "a1/a" || d == "a1/a2"
    ensures SearchSuffix("a", d) == Some(1)
  {
    assert MatchAt("a", d, 0);
    assert FirstMatchFrom("a", d, 0) == Some(0);
    assert d[1..] == "1/a" || d[1..] == "1/a2";
    assert DigitRun(d[1..]) == "1" by {
      assert DigitRun(d[2..]) == [];
    }
    assert ParseDecimal("1") == 1;
  }

  // ---------------------------------------------------------------------
  // Corrected: the suffix is the digit run directly after `path`
  // ---------------------------------------------------------------------

  /** The number written directly after `path` in `d`, if `d` continues `path` with a digit. */
  function AnchoredSuffix(path: string, d: string): (r: Option<nat>)
    ensures r.Some? <==> path <= d && |path| < |d| && IsDigit(d[|path|])
  {
    if path <= d && |path| < |d| && IsDigit(d[|path|]) then Some(ParseDecimal(DigitRun(d[|path|..])))
    else None
  }

  /** The matches of the pattern anchored at the end of `path`: `re.match(re.escape(path) + r"(\d+)", d)`. */
  function AnchoredMatches(path: string, dirs: seq<string>): (ms: seq<Option<nat>>)
    ensures |ms| == |dirs|
  {
    seq(|dirs|, k requires 0 <= k < |dirs| => AnchoredSuffix(path, dirs[k]))
  }

  /** `increment_path` with the suffix search anchored to the end of `path`. */
  function IncrementPath(path: string, existing: seq<string>, existOk: bool): (r: string)
    ensures path !in existing || existOk ==> r == path
    ensures path <= r
  {
    if (path in existing && existOk) || path !in existing then path
    else path + Decimal(NextNumber(Found(AnchoredMatches(path, Glob(existing, path)))))
  }

  /**
   * When `path` is taken and may not be reused, the corrected name is `path`
   * followed by a numeral larger than every number already written after
   * `path`, and it names nothing that exists.
   */
  lemma IncrementPathFresh(path: string, existing: seq<string>)
    requires path in existing
    ensures IncrementPath(path, existing, false) !in existing
    ensures exists n: nat :: n >= 1 && IncrementPath(path, existing, false) == path + Decimal(n) &&
              forall d, m :: d in existing && AnchoredSuffix(path, d) == Some(m) && '/' !in d[|path|..] ==> m < n
  {
    var dirs := Glob(existing, path);
    var ms := AnchoredMatches(path, dirs);
    var n := NextNumber(Found(ms));
    var r := path + Decimal(n);
    assert r == IncrementPath(path, existing, false);
    GlobMembership(existing, path);
    forall d, m | d in existing && AnchoredSuffix(path, d) == Some(m) && '/' !in d[|path|..] ensures m < n {
      assert d in dirs;
      var k :| 0 <= k < |dirs| && dirs[k] == d;
      NextNumberAbove(ms, k);
    }
    assert r[|path|..] == Decimal(n);
    DigitRunOfNumeral(n, []);
    assert Decimal(n) + [] == Decimal(n);
    ParseDecimalOfDecimal(n);
    assert AnchoredSuffix(path, r) == Some(n);
  }

  /** On the input that defeats the code as written, the corrected name is new. */
  lemma CorrectedAvoidsExistingDirectory()
    ensures IncrementPath("a1/a", ["a1/a", "a1/a2"], false) == "a1/a3"
  {
    ExampleGlob();
    ExampleAnchoredMatches("a1/a", ["a1/a", "a1/a2"]);
    ExampleFound();
    assert NextNumber([2]) == 3;
    assert Decimal(3) == "3";
  }

  lemma ExampleAnchoredMatches(path: string, dirs: seq<string>)
    requires path == "a1/a" && dirs == ["a1/a", "a1/a2"]
    ensures AnchoredMatches(path, dirs) == [None, Some(2)]
  {
    assert AnchoredSuffix(path, dirs[0]) == None;
    assert AnchoredSuffix(path, dirs[1]) == Some(2) by {
      assert dirs[1][4..] == "2";
      assert DigitRun("2") == "2";
      assert ParseDecimal("2") == 2;
    }
  }
}
