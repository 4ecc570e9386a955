/**
 * What the core reads from its host: configuration values, files, and the
 * .NET helpers it uses to compose text (`Path.Combine`, `int.ToString`).
 */
module Host {
  import opened Outcomes

  /** An `IConfiguration`: a key that is absent reads as null. */
  type Configuration = map<string, string>

  /** The file contents visible at the moment of a call, by path. */
  type FileSystem = map<string, string>

  /** The indexer `configuration[key]`. */
  function ConfigValue(configuration: Configuration, key: string): Option<string> {
    if key in configuration then Some(configuration[key]) else None
  }

  /** `File.ReadAllText`: the file's text, or FileNotFoundException. */
  function ReadAllText(fs: FileSystem, path: string): Result<string, Error> {
    if path in fs then Success(fs[path]) else Failure(FileNotFound(path))
  }

  // ---------------------------------------------------------------- paths

  /** The directory separator of the host (a Unix host). */
  const Separator: char := '/'

  /**
   * `Path.Combine(dir, name)`: an empty `name` leaves `dir` as it is, a rooted
   * `name` wins, an empty `dir` is dropped, and a separator is inserted only
   * when `dir` does not end in one.
   */
  function Combine(dir: string, name: string): (p: string)
    ensures name == [] ==> p == dir
    ensures name != [] && Separator !in name ==> FileName(p) == name
    ensures |name| <= |p| && p[|p| - |name|..] == name
    ensures dir != [] && (name == [] || name[0] != Separator) ==> dir <= p
    ensures dir != [] && name != [] && Separator !in name ==> InFolder(p, dir)
    ensures dir == [] || (|name| > 0 && name[0] == Separator) ==> p == name
  {
    if name == [] then dir
    else
      var prefix := if name[0] == Separator then []
                    else if dir == [] then []
                    else if dir[|dir| - 1] == Separator then dir
                    else dir + [Separator];
      var p := prefix + name;
      if Separator !in name then
        FileNameAfterSeparator(prefix, name);
        assert dir != [] ==> prefix == AsFolder(dir) && p[|prefix|..] == name;
        p
      else p
  }

  /** The folder `dir` with exactly one separator at its end. */
  function AsFolder(dir: string): (d: string)
    requires dir != []
    ensures dir <= d && |d| <= |dir| + 1 && d[|d| - 1] == Separator
  {
    if dir[|dir| - 1] == Separator then dir else dir + [Separator]
  }

  /** `p` names an entry directly inside the folder `dir`: no further separator follows the folder. */
  predicate InFolder(p: string, dir: string)
    requires dir != []
  {
    AsFolder(dir) <= p && Separator !in p[|AsFolder(dir)|..]
  }

  /** An entry directly inside a folder is fixed by its file name: a sibling folder such as "ab" for "a" never qualifies. */
  lemma {:induction false} InFolderByFileName(p: string, q: string, dir: string)
    requires dir != [] && InFolder(p, dir) && InFolder(q, dir)
    requires FileName(p) == FileName(q)
    ensures p == q
  {
    var d := AsFolder(dir);
    assert p == d + p[|d|..] && q == d + q[|d|..];
    FileNameAfterSeparator(d, p[|d|..]);
    FileNameAfterSeparator(d, q[|d|..]);
  }

  /** `Path.GetFileName`: what follows the last separator. */
  function FileName(p: string): (r: string)
    ensures |r| <= |p|
    ensures Separator !in r
  {
    if p == [] then []
    else if p[|p| - 1] == Separator then []
    else FileName(p[..|p| - 1]) + [p[|p| - 1]]
  }

  /** A name without separators, after nothing or after a separator, is the file name of the whole path. */
  lemma {:induction false} FileNameAfterSeparator(prefix: string, name: string)
    requires prefix == [] || prefix[|prefix| - 1] == Separator
    requires Separator !in name
    ensures FileName(prefix + name) == name
  {
    var w := prefix + name;
    if name == [] {
      assert w == prefix;
    } else {
      var front := name[..|name| - 1];
      var last := name[|name| - 1];
      assert last in name;
      assert w[|w| - 1] == last && last != Separator;
      assert w[..|w| - 1] == prefix + front;
      assert forall c :: c in front ==> c in name;
      FileNameAfterSeparator(prefix, front);
      assert FileName(w) == FileName(prefix + front) + [last];
      assert front + [last] == name;
    }
  }

  // -------------------------------------------------------------- numbers

  predicate IsDigit(c: char) {
    '0' <= c <= '9'
  }

  predicate AllDigits(s: string) {
    forall i :: 0 <= i < |s| ==> IsDigit(s[i])
  }

  function DigitChar(d: nat): (c: char)
    requires d < 10
    ensures IsDigit(c) && (c as int) - ('0' as int) == d
  {
    ('0' as int + d) as char
  }

  /** The decimal digits of `n`, most significant first, with no leading zero. */
  function NatString(n: nat): (s: string)
    ensures |s| >= 1 && AllDigits(s)
    ensures |s| > 1 ==> s[0] != '0'
  {
    if n < 10 then [DigitChar(n)] else NatString(n / 10) + [DigitChar(n % 10)]
  }

  /** `int.ToString()` with an ASCII minus sign for negative numbers, then the digits. */
  function DecimalString(n: int): (s: string)
    ensures ' ' !in s
    ensures ParseDecimal(s) == Some(n)
  {
    ParseNatString(if n < 0 then -n else n);
    var s := if n < 0 then "-" + NatString(-n) else NatString(n);
    assert n < 0 ==> s[1..] == NatString(-n);
    s
  }

  /** The value of a non-empty run of decimal digits. */
  function ParseNat(s: string): nat
    requires |s| >= 1 && AllDigits(s)
  {
    var last := (s[|s| - 1] as int) - ('0' as int);
    if |s| == 1 then last else ParseNat(s[..|s| - 1]) * 10 + last
  }

  /** The sign-and-digits form accepted by `int.Parse`: an optional minus sign and at least one digit. */
  function ParseDecimal(s: string): (r: Option<int>)
    ensures r.Some? <==> (|s| >= 1 && AllDigits(s)) || (|s| >= 2 && s[0] == '-' && AllDigits(s[1..]))
  {
    if |s| >= 2 && s[0] == '-' && AllDigits(s[1..]) then Some(0 - ParseNat(s[1..]) as int)
    else if |s| >= 1 && AllDigits(s) then Some(ParseNat(s))
    else None
  }

  lemma {:induction false} ParseNatString(n: nat)
    ensures ParseNat(NatString(n)) == n
  {
    if n >= 10 {
      var s := NatString(n);
      ParseNatString(n / 10);
      assert s[..|s| - 1] == NatString(n / 10);
    }
  }
}
