/**
  The pieces of Python's string handling that the catalog code relies on:
  `str.split` on one separator character, `str.lower` on ASCII letters,
  `os.path.splitext` as the POSIX flavour of `os.path` defines it, and the
  decimal digits of a non-negative integer.
 */
module PyText {
  /** `sep.join(parts)`. */
  function Join(parts: seq<string>, sep: char): (r: string)
    requires |parts| >= 1
    decreases |parts|
  {
    if |parts| == 1 then parts[0] else parts[0] + [sep] + Join(parts[1..], sep)
  }

  /** The index of the first `c` in `s`, or `|s|` when there is none. */
  function Find(s: string, c: char): (r: nat)
    ensures r <= |s| && c !in s[..r]
    ensures r < |s| ==> s[r] == c
  {
    if s == [] || s[0] == c then 0
    else
      var k := Find(s[1..], c);
      assert s[..k + 1] == [s[0]] + s[1..][..k];
      k + 1
  }

  /** `s.split(sep)`: the pieces between the separators, empty ones kept;
      joining them back gives `s`. */
  function Split(s: string, sep: char): (r: seq<string>)
    ensures |r| >= 1
    ensures forall i :: 0 <= i < |r| ==> sep !in r[i]
    ensures Join(r, sep) == s
    decreases |s|
  {
    var i := Find(s, sep);
    if i == |s| then
      assert s[..i] == s;
      [s]
    else
      var rest := Split(s[i + 1..], sep);
      assert s == s[..i] + [sep] + s[i + 1..];
      assert ([s[..i]] + rest)[1..] == rest;
      [s[..i]] + rest
  }

  /** Splitting what was joined gives the parts back, when no part holds the
      separator. */
  lemma {:induction false} SplitJoin(parts: seq<string>, sep: char)
    requires |parts| >= 1 && forall i :: 0 <= i < |parts| ==> sep !in parts[i]
    ensures Split(Join(parts, sep), sep) == parts
    decreases |parts|
  {
    var s := Join(parts, sep);
    if |parts| == 1 {
      assert Find(s, sep) == |s| by {
        assert sep !in s;
      }
    } else {
      var rest := Join(parts[1..], sep);
      assert s == parts[0] + [sep] + rest;
      var i := |parts[0]|;
      assert s[..i] == parts[0];
      assert Find(s, sep) == i by {
        assert s[i] == sep;
        assert sep !in s[..i];
        FindFirst(s, sep, i);
      }
      assert s[i + 1..] == rest;
      SplitJoin(parts[1..], sep);
      assert [parts[0]] + parts[1..] == parts;
    }
  }

  /** `Find` returns the first occurrence. */
  lemma FindFirst(s: string, c: char, i: nat)
    requires i < |s| && s[i] == c && c !in s[..i]
    ensures Find(s, c) == i
  {
  }

  /** The index of the last `c` in `s[..n]`, or -1 when there is none. */
  function RFindBelow(s: string, c: char, n: nat): (r: int)
    requires n <= |s|
    ensures -1 <= r < n
    ensures r >= 0 ==> s[r] == c
    ensures forall k :: r < k < n ==> s[k] != c
  {
    if n == 0 then -1
    else if s[n - 1] == c then n - 1
    else RFindBelow(s, c, n - 1)
  }

  /** `s.rfind(c)`: the index of the last `c` in `s`, or -1 when there is none. */
  function RFind(s: string, c: char): (r: int)
    ensures -1 <= r < |s|
    ensures r >= 0 ==> s[r] == c
    ensures forall k :: r < k < |s| ==> s[k] != c
  {
    RFindBelow(s, c, |s|)
  }

  /** Lower-casing of one character, for ASCII letters. */
  function LowerChar(c: char): (r: char)
    ensures 'A' <= c <= 'Z' ==> r as int == c as int + 32
    ensures !('A' <= c <= 'Z') ==> r == c
  {
    if 'A' <= c <= 'Z' then (c as int + 32) as char else c
  }

  /** `s.lower()` for ASCII text. */
  function Lower(s: string): (r: string)
    ensures |r| == |s| && forall i :: 0 <= i < |s| ==> r[i] == LowerChar(s[i])
  {
    seq(|s|, i requires 0 <= i < |s| => LowerChar(s[i]))
  }

  /** Lower-casing twice is lower-casing once. */
  lemma LowerIdempotent(s: string)
    ensures Lower(Lower(s)) == Lower(s)
  {
    assert forall i :: 0 <= i < |s| ==> LowerChar(LowerChar(s[i])) == LowerChar(s[i]);
  }

  /** Only dots between `lo` and `hi`. */
  predicate AllDots(p: string, lo: int, hi: int)
    requires 0 <= lo && hi <= |p|
  {
    forall k | lo <= k < hi :: p[k] == '.'
  }

  /** `p[j..]` is an extension of `p`: a dot after the last slash, no dot or
      slash after it, and something other than a dot between the last slash
      and it, so that a leading dot (".bashrc") does not count. */
  ghost predicate ExtensionAt(p: string, j: int)
  {
    && 0 <= j < |p| && p[j] == '.'
    && (forall k :: j < k < |p| ==> p[k] != '.' && p[k] != '/')
    && RFind(p, '/') < j
    && !AllDots(p, RFind(p, '/') + 1, j)
  }

  /** `os.path.splitext(p)`, POSIX flavour: the root and the extension with its dot. */
  function SplitExt(p: string): (r: (string, string))
    ensures r.0 + r.1 == p
  {
    var sepIndex := RFind(p, '/');
    var dotIndex := RFind(p, '.');
    if dotIndex > sepIndex && !AllDots(p, sepIndex + 1, dotIndex) then
      (p[..dotIndex], p[dotIndex..])
    else
      (p, [])
  }

  /** `SplitExt` splits off an extension exactly when the name has one, and
      then at the dot that starts it. */
  lemma SplitExtSpec(p: string)
    ensures SplitExt(p).1 != [] <==> exists j :: ExtensionAt(p, j)
    ensures SplitExt(p).1 != [] ==> ExtensionAt(p, |SplitExt(p).0|)
  {
    var sepIndex := RFind(p, '/');
    var dotIndex := RFind(p, '.');
    if dotIndex > sepIndex && !AllDots(p, sepIndex + 1, dotIndex) {
      assert ExtensionAt(p, dotIndex);
    } else {
      assert forall j :: ExtensionAt(p, j) ==> j == dotIndex;
    }
  }

  /** A proper extension: a dot, then neither dots nor slashes. */
  predicate IsExt(ext: string)
  {
    |ext| >= 1 && ext[0] == '.' && forall k :: 1 <= k < |ext| ==> ext[k] != '.' && ext[k] != '/'
  }

  /** Putting a proper extension after a root that has a name part gives both
      back. */
  lemma SplitExtJoin(root: string, ext: string)
    requires IsExt(ext) && !AllDots(root, RFind(root, '/') + 1, |root|)
    ensures SplitExt(root + ext) == (root, ext)
  {
    var p := root + ext;
    ExtensionJoin(root, ext);
    SplitExtSpec(p);
    var r := SplitExt(p);
    ExtensionAtUnique(p, |r.0|, |root|);
    assert p[..|root|] == root && p[|root|..] == ext;
  }

  /** A string has at most one extension. */
  lemma ExtensionAtUnique(p: string, i: int, j: int)
    requires ExtensionAt(p, i) && ExtensionAt(p, j)
    ensures i == j
  {
  }

  /** The extension of `root + ext` starts where `ext` does. */
  lemma ExtensionJoin(root: string, ext: string)
    requires IsExt(ext) && !AllDots(root, RFind(root, '/') + 1, |root|)
    ensures ExtensionAt(root + ext, |root|)
  {
    NoSlash(ext);
    RFindPrefix(root, ext, '/');
    NameKept(root, ext, RFind(root, '/') + 1);
    ExtKept(root, ext);
  }

  lemma NoSlash(ext: string)
    requires IsExt(ext)
    ensures forall k :: 0 <= k < |ext| ==> ext[k] != '/'
  {
    assert '.' != '/';
    forall k | 0 <= k < |ext| ensures ext[k] != '/' {
      if k == 0 { assert ext[k] == '.'; } else { assert ext[k] != '/'; }
    }
  }

  lemma NameKept(root: string, ext: string, lo: int)
    requires 0 <= lo && !AllDots(root, lo, |root|)
    ensures !AllDots(root + ext, lo, |root|)
  {
    var k :| lo <= k < |root| && root[k] != '.';
    assert (root + ext)[k] == root[k];
  }

  lemma ExtKept(root: string, ext: string)
    requires IsExt(ext)
    ensures (root + ext)[|root|] == '.'
    ensures forall k :: |root| < k < |root + ext| ==> (root + ext)[k] != '.' && (root + ext)[k] != '/'
  {
    var p := root + ext;
    assert forall k :: |root| <= k < |p| ==> p[k] == ext[k - |root|];
  }

  /** The last `c` of `a + b` is the last of `a` when `b` has none. */
  lemma RFindPrefix(a: string, b: string, c: char)
    requires forall k :: 0 <= k < |b| ==> b[k] != c
    ensures RFind(a + b, c) == RFind(a, c)
  {
    var p := a + b;
    assert forall k :: 0 <= k < |a| ==> p[k] == a[k];
    assert forall k :: |a| <= k < |p| ==> p[k] == b[k - |a|];
  }

  /** `ext[1:]` of an extension: everything after its dot. */
  function DropDot(ext: string): (r: string)
    ensures ext != [] ==> r == ext[1..]
    ensures ext == [] ==> r == []
  {
    if ext == [] then [] else ext[1..]
  }

  /** `os.path.splitext(name)[1][1:].lower()`: the lower-case extension
      without its dot, as the catalog code reads it. */
  function Extension(name: string): (r: string)
    ensures '.' !in r && '/' !in r
    ensures SplitExt(name).1 == [] ==> r == []
  {
    var ext := SplitExt(name).1;
    var r := Lower(DropDot(ext));
    assert forall k :: 0 <= k < |r| ==> r[k] != '.' && r[k] != '/' by {
      forall k | 0 <= k < |r| ensures r[k] != '.' && r[k] != '/' {
        SplitExtSpec(name);
        assert ExtensionAt(name, |SplitExt(name).0|);
        assert name[|SplitExt(name).0| + 1 + k] == ext[1 + k];
      }
    }
    r
  }

  /** The digits of `n`, most significant first, as `str(n)` writes them. */
  function Decimal(n: nat): (r: string)
    ensures |r| >= 1 && forall i :: 0 <= i < |r| ==> '0' <= r[i] <= '9'
    decreases n
  {
    var d := ['0' + (n % 10) as char];
    if n < 10 then d else Decimal(n / 10) + d
  }

  /** The value of a string of decimal digits. */
  function DigitsValue(s: string): nat
    requires forall i :: 0 <= i < |s| ==> '0' <= s[i] <= '9'
  {
    if s == [] then 0 else 10 * DigitsValue(s[..|s| - 1]) + (s[|s| - 1] - '0') as nat
  }

  /** Reading the digits back gives the number. */
  lemma {:induction false} DecimalValue(n: nat)
    ensures DigitsValue(Decimal(n)) == n
    decreases n
  {
    var r := Decimal(n);
    assert r[..|r| - 1] == if n < 10 then [] else Decimal(n / 10);
    if n >= 10 {
      DecimalValue(n / 10);
    }
  }
}
