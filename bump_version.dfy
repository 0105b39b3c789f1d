/**
 * The release script `bump-version.js`: it reads the manifest's `version`
 * string, splits it on '.', rewrites one segment according to a flag
 * (`--major`, `--minor`, `--patch`) and writes the manifest back, or stops
 * with exit status 1 (`--skip`, no flag, an unknown flag).
 *
 * The script's values are JavaScript values, and the model keeps their rules:
 * `parseInt` skips leading white space, reads a sign and a "0x" prefix and
 * gives NaN when no digit follows; `NaN + 1` prints as "NaN"; assigning an
 * array slot past the end leaves holes, which `join` prints as "".
 */
module BumpVersion {
  import opened Options
  import opened Text

  /** A JSON value of the manifest; only whether it is a string matters to the script. */
  datatype Json = JString(s: string) | JOther(text: string)

  type Manifest = map<string, Json>

  datatype Rule = Major | Minor | Patch

  /** How one run ends. Only `Bumped` writes the manifest; every other outcome exits with status 1. */
  datatype Outcome =
    | Bumped(parts: seq<string>, version: string, manifest: Manifest, file: string, stdout: string)
    | Skipped(stdout: string)
    | UsageError(stderr: string)
    | InvalidFlag(stderr: string)
      /** `packageJson.version.split` throws a TypeError when the field is missing or not a string. */
    | VersionTypeError

  const UsageMessage := "Please provide a version bump flag: --major, --minor, or --patch"
  const SkipMessage := "Skipping version bump."
  const InvalidMessage := "Invalid flag. Use --major, --minor, or --patch"
  const BumpedPrefix := "Version bumped to "

  function ExitCode(o: Outcome): int
  {
    if o.Bumped? then 0 else 1
  }

  /** The rule a command-line flag selects, if it selects one. */
  function RuleOf(flag: string): (r: Option<Rule>)
    ensures r == Some(Major) <==> flag == "--major"
    ensures r == Some(Minor) <==> flag == "--minor"
    ensures r == Some(Patch) <==> flag == "--patch"
  {
    if flag == "--major" then Some(Major)
    else if flag == "--minor" then Some(Minor)
    else if flag == "--patch" then Some(Patch)
    else None
  }

  predicate HasStringVersion(m: Manifest)
  {
    "version" in m && m["version"].JString?
  }

  // ---------------------------------------------------------------------------
  // parseInt with no radix argument

  /** The characters `parseInt` skips at the front of its argument (ECMAScript WhiteSpace and LineTerminator). */
  predicate IsJsWhiteSpace(c: char)
  {
    c == '\t' || c == '\n' || c == '\U{B}' || c == '\U{C}' || c == '\r' || c == ' '
    || c == '\U{A0}' || c == '\U{1680}' || ('\U{2000}' <= c <= '\U{200A}')
    || c == '\U{2028}' || c == '\U{2029}' || c == '\U{202F}' || c == '\U{205F}'
    || c == '\U{3000}' || c == '\U{FEFF}'
  }

  function TrimStart(s: string): (t: string)
    ensures t == [] || !IsJsWhiteSpace(t[0])
    ensures |t| <= |s| && t == s[|s| - |t|..]
  {
    if s != [] && IsJsWhiteSpace(s[0]) then TrimStart(s[1..]) else s
  }

  /** The value of an alphanumeric character as a digit of radix up to 36; 36 for every other character. */
  function RadixValue(c: char): (v: nat)
    ensures v <= 36
    ensures IsDigit(c) ==> v == DigitValue(c)
  {
    if '0' <= c <= '9' then c as int - '0' as int
    else if 'a' <= c <= 'z' then c as int - 'a' as int + 10
    else if 'A' <= c <= 'Z' then c as int - 'A' as int + 10
    else 36
  }

  /** The longest prefix of `s` made of digits of `radix`. */
  function DigitPrefix(s: string, radix: nat): (ds: string)
    ensures |ds| <= |s| && ds == s[..|ds|]
    ensures forall i :: 0 <= i < |ds| ==> RadixValue(ds[i]) < radix
    ensures |ds| < |s| ==> RadixValue(s[|ds|]) >= radix
  {
    if s != [] && RadixValue(s[0]) < radix then [s[0]] + DigitPrefix(s[1..], radix) else []
  }

  function DigitsValue(ds: string, radix: nat): nat
  {
    if ds == [] then 0 else DigitsValue(ds[..|ds| - 1], radix) * radix + RadixValue(ds[|ds| - 1])
  }

  /** The digits `parseInt` reads after the sign: hexadecimal after a "0x" or "0X" prefix, decimal otherwise. */
  function Digits(u: string): (r: (string, nat))
    ensures r.1 == 10 || r.1 == 16
  {
    if |u| >= 2 && u[0] == '0' && (u[1] == 'x' || u[1] == 'X') then (DigitPrefix(u[2..], 16), 16)
    else (DigitPrefix(u, 10), 10)
  }

  /** JavaScript's `parseInt(s)`: `None` stands for NaN. */
  function JsParseInt(s: string): (r: Option<int>)
  {
    var t := TrimStart(s);
    var negative := t != [] && t[0] == '-';
    var u := if t != [] && (t[0] == '-' || t[0] == '+') then t[1..] else t;
    var (ds, radix) := Digits(u);
    if ds == [] then None
    else
      var v: int := DigitsValue(ds, radix);
      Some(if negative then -v else v)
  }

  /** The text `parseInt(part) + 1` is printed as by `join`. */
  function Incremented(part: string): string
  {
    match JsParseInt(part)
    case None => "NaN"
    case Some(v) => ShowInt(v + 1)
  }

  lemma {:induction false} DigitPrefixOfDigits(s: string)
    requires forall i :: 0 <= i < |s| ==> IsDigit(s[i])
    ensures DigitPrefix(s, 10) == s
  {
    if s != [] {
      DigitPrefixOfDigits(s[1..]);
      assert s == [s[0]] + s[1..];
    }
  }

  lemma {:induction false} DigitsValueDecimal(s: string)
    requires forall i :: 0 <= i < |s| ==> IsDigit(s[i])
    ensures DigitsValue(s, 10) == DecimalValue(s)
  {
    if s != [] {
      DigitsValueDecimal(s[..|s| - 1]);
    }
  }

  /** `parseInt` reads back every number the script prints. */
  lemma ParseIntShowNat(n: nat)
    ensures JsParseInt(ShowNat(n)) == Some(n)
  {
    var s := ShowNat(n);
    assert IsDigit(s[0]);
    assert !IsJsWhiteSpace(s[0]);
    assert TrimStart(s) == s;
    assert s[0] != '-' && s[0] != '+';
    assert !(|s| >= 2 && s[0] == '0');
    DigitPrefixOfDigits(s);
    assert Digits(s) == (s, 10);
    DigitsValueDecimal(s);
    DecimalValueShowNat(n);
  }

  /** A segment that reads as the number `n` is bumped to `n + 1`. */
  lemma IncrementedShowNat(n: nat)
    ensures Incremented(ShowNat(n)) == ShowNat(n + 1)
  {
    ParseIntShowNat(n);
  }

  // ---------------------------------------------------------------------------
  // The segments array

  /** Reading `versionParts[i]` as text: a slot past the end reads as "" (`parseInt` gives NaN for both). */
  function At(parts: seq<string>, i: nat): string
  {
    if i < |parts| then parts[i] else ""
  }

  /** JavaScript's `parts[i] = v`: slots between the old end and `i` become holes, which `join` prints as "". */
  function Store(parts: seq<string>, i: nat, v: string): (r: seq<string>)
    ensures |r| == if i < |parts| then |parts| else i + 1
    ensures r[i] == v
    ensures forall j :: 0 <= j < |r| && j != i ==> r[j] == At(parts, j)
  {
    if i < |parts| then parts[i := v] else parts + seq(i - |parts|, _ => "") + [v]
  }

  /** The segments past the third, which no bump touches. */
  function Beyond(p: seq<string>): seq<string>
  {
    if |p| > 3 then p[3..] else []
  }

  /** The segments after a bump, stated segment by segment; segments past the third are kept. */
  function BumpedParts(p: seq<string>, rule: Rule): (r: seq<string>)
    requires |p| >= 1
    ensures |r| == if |p| > 3 then |p| else 3
    ensures forall j :: 3 <= j < |p| ==> r[j] == p[j]
    ensures rule != Major ==> r[0] == p[0]
    ensures rule == Patch ==> r[1] == At(p, 1)
  {
    var head := match rule
      case Major => [Incremented(At(p, 0)), "0", "0"]
      case Minor => [p[0], Incremented(At(p, 1)), "0"]
      case Patch => [p[0], At(p, 1), Incremented(At(p, 2))];
    BeyondKept(p, head);
    head + Beyond(p)
  }

  /** Three new segments followed by `Beyond(p)` keep every segment of `p` past the third. */
  lemma BeyondKept(p: seq<string>, head: seq<string>)
    requires |head| == 3
    ensures |head + Beyond(p)| == if |p| > 3 then |p| else 3
    ensures forall j :: 3 <= j < |p| ==> (head + Beyond(p))[j] == p[j]
  {
  }

  /** The three stores of `--major`, whatever the new first segment `x`. */
  lemma MajorStores(p: seq<string>, x: string)
    requires |p| >= 1
    ensures Store(Store(Store(p, 0, x), 1, "0"), 2, "0") == [x, "0", "0"] + Beyond(p)
  {
    var r1 := Store(p, 0, x);
    var r2 := Store(r1, 1, "0");
    var r := Store(r2, 2, "0");
    var b := [x, "0", "0"] + Beyond(p);
    assert |r1| == |p|;
    assert |r| == |b|;
    forall j | 0 <= j < |r| ensures r[j] == b[j] {
      if j >= 3 {
        assert r[j] == At(r2, j) == At(r1, j) == p[j];
      }
    }
  }

  /** The two stores of `--minor`, whatever the new second segment `y`. */
  lemma MinorStores(p: seq<string>, y: string)
    requires |p| >= 1
    ensures Store(Store(p, 1, y), 2, "0") == [p[0], y, "0"] + Beyond(p)
  {
    var r1 := Store(p, 1, y);
    var r := Store(r1, 2, "0");
    var b := [p[0], y, "0"] + Beyond(p);
    assert |r| == |b|;
    forall j | 0 <= j < |r| ensures r[j] == b[j] {
      if j >= 3 {
        assert r[j] == At(r1, j) == p[j];
      }
    }
  }

  /** The store of `--patch`, whatever the new third segment `z`. */
  lemma PatchStores(p: seq<string>, z: string)
    requires |p| >= 1
    ensures Store(p, 2, z) == [p[0], At(p, 1), z] + Beyond(p)
  {
    var r := Store(p, 2, z);
    var b := [p[0], At(p, 1), z] + Beyond(p);
    assert |r| == |b|;
    forall j | 0 <= j < |r| ensures r[j] == b[j] {
      if j >= 3 { assert r[j] == p[j]; }
    }
  }

  /**
   * One run of the script on an already parsed manifest. `stringify` stands
   * for `JSON.stringify(_, null, 2)`; the file system and the console are
   * left out, and what would be written or printed is returned instead.
   */
  method Run(manifest: Manifest, flag: Option<string>, stringify: Manifest -> string) returns (o: Outcome)
    ensures !HasStringVersion(manifest) ==> o == VersionTypeError
    ensures HasStringVersion(manifest) && (flag == None || flag == Some("")) ==> o == UsageError(UsageMessage)
    ensures HasStringVersion(manifest) && flag == Some("--skip") ==> o == Skipped(SkipMessage)
    ensures (HasStringVersion(manifest) && flag.Some? && flag.value != "" && flag.value != "--skip"
              && RuleOf(flag.value).None?) ==> o == InvalidFlag(InvalidMessage)
    ensures o.Bumped? <==> HasStringVersion(manifest) && flag.Some? && RuleOf(flag.value).Some?
    ensures o.Bumped? ==>
              && o.parts == BumpedParts(Split(manifest["version"].s, '.'), RuleOf(flag.value).value)
              && o.version == Join(o.parts, '.')
              && o.manifest == manifest["version" := JString(o.version)]
              && o.file == stringify(o.manifest) + "\n"
              && o.stdout == BumpedPrefix + o.version
    ensures o.Bumped? ==> o.manifest.Keys == manifest.Keys
    ensures o.Bumped? ==> forall k :: k in manifest && k != "version" ==> o.manifest[k] == manifest[k]
  {
    if !HasStringVersion(manifest) {
      return VersionTypeError;
    }
    var currentVersion := manifest["version"].s;
    var versionParts := Split(currentVersion, '.');
    ghost var original := versionParts;

    if flag.None? || flag.value == "" {
      return UsageError(UsageMessage);
    }
    var f := flag.value;
    if f == "--skip" {
      return Skipped(SkipMessage);
    } else if f == "--major" {
      var x := Incremented(At(versionParts, 0));
      MajorStores(versionParts, x);
      versionParts := Store(versionParts, 0, x);
      versionParts := Store(versionParts, 1, "0");
      versionParts := Store(versionParts, 2, "0");
    } else if f == "--minor" {
      var y := Incremented(At(versionParts, 1));
      MinorStores(versionParts, y);
      versionParts := Store(versionParts, 1, y);
      versionParts := Store(versionParts, 2, "0");
    } else if f == "--patch" {
      var z := Incremented(At(versionParts, 2));
      PatchStores(versionParts, z);
      versionParts := Store(versionParts, 2, z);
    } else {
      return InvalidFlag(InvalidMessage);
    }
    assert versionParts == BumpedParts(original, RuleOf(f).value);

    var version := Join(versionParts, '.');
    var packageJson := manifest["version" := JString(version)];
    o := Bumped(versionParts, version, packageJson, stringify(packageJson) + "\n", BumpedPrefix + version);
  }

  // ---------------------------------------------------------------------------
  // What the bump does to a version written as three '.'-free segments

  function Version(a: string, b: string, c: string): string
  {
    Join([a, b, c], '.')
  }

  lemma NoDotInNumber(n: nat)
    ensures '.' !in ShowNat(n)
  {
  }

  /** `--major` turns "X.Y.Z" into "(X+1).0.0". */
  lemma BumpMajor(x: nat, b: string, c: string)
    requires '.' !in b && '.' !in c
    ensures Join(BumpedParts(Split(Version(ShowNat(x), b, c), '.'), Major), '.') == Version(ShowNat(x + 1), "0", "0")
  {
    var parts := [ShowNat(x), b, c];
    NoDotInNumber(x);
    SplitJoin(parts, '.');
    IncrementedShowNat(x);
    assert BumpedParts(parts, Major) == [ShowNat(x + 1), "0", "0"];
  }

  /** `--minor` turns "X.Y.Z" into "X.(Y+1).0", keeping the text of X as it was. */
  lemma BumpMinor(a: string, y: nat, c: string)
    requires '.' !in a && '.' !in c
    ensures Join(BumpedParts(Split(Version(a, ShowNat(y), c), '.'), Minor), '.') == Version(a, ShowNat(y + 1), "0")
  {
    var parts := [a, ShowNat(y), c];
    NoDotInNumber(y);
    SplitJoin(parts, '.');
    IncrementedShowNat(y);
    assert BumpedParts(parts, Minor) == [a, ShowNat(y + 1), "0"];
  }

  /** `--patch` turns "X.Y.Z" into "X.Y.(Z+1)", keeping the text of X and Y as it was. */
  lemma BumpPatch(a: string, b: string, z: nat)
    requires '.' !in a && '.' !in b
    ensures Join(BumpedParts(Split(Version(a, b, ShowNat(z)), '.'), Patch), '.') == Version(a, b, ShowNat(z + 1))
  {
    var parts := [a, b, ShowNat(z)];
    NoDotInNumber(z);
    SplitJoin(parts, '.');
    IncrementedShowNat(z);
    assert BumpedParts(parts, Patch) == [a, b, ShowNat(z + 1)];
  }

  /** A leading zero is kept verbatim by `--minor`: "01.2.3" becomes "01.3.0". */
  lemma LeadingZeroKeptByMinor()
    ensures Join(BumpedParts(Split("01.2.3", '.'), Minor), '.') == "01.3.0"
  {
    assert ShowNat(2) == [DigitChar(2)] == "2";
    assert ShowNat(3) == [DigitChar(3)] == "3";
    assert Version("01", "2", "3") == "01.2.3" by {
      assert Join(["3"], '.') == "3";
      assert Join(["2", "3"], '.') == "2.3";
    }
    assert Version("01", "3", "0") == "01.3.0" by {
      assert Join(["0"], '.') == "0";
      assert Join(["3", "0"], '.') == "3.0";
    }
    BumpMinor("01", 2, "3");
  }

  /** A version with a missing segment does not fail: "5" becomes "5.NaN.0" under `--minor` and "5..NaN" under `--patch`. */
  lemma ShortVersion()
    ensures Join(BumpedParts(Split("5", '.'), Minor), '.') == "5.NaN.0"
    ensures Join(BumpedParts(Split("5", '.'), Patch), '.') == "5..NaN"
  {
    SplitJoin(["5"], '.');
    assert Split("5", '.') == ["5"];
    assert JsParseInt("") == None;
    assert BumpedParts(["5"], Minor) == ["5", "NaN", "0"];
    assert BumpedParts(["5"], Patch) == ["5", "", "NaN"];
  }
}
