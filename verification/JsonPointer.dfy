/** Locations of raw records as JSON pointers, written as the parser writes them and read as sections 3
    and 4 of RFC 6901 say. */
module JsonPointer {
  import opened Orders

  type Path = seq<string>

  // ---------------------------------------------------------------- writing

  /** Every `c` becomes the two characters `t`. */
  function Replaced(s: string, c: char, t: string): string {
    if s == [] then [] else (if s[0] == c then t else [s[0]]) + Replaced(s[1..], c, t)
  }

  function Escaped(segment: string): string {
    Replaced(Replaced(segment, '~', "~0"), '/', "~1")
  }

  /** `child_path`. */
  function ChildPath(path: string, segment: string): string {
    path + "/" + Escaped(segment)
  }

  function Encoded(p: Path): string
    decreases |p|
  {
    if p == [] then "" else ChildPath(Encoded(p[..|p| - 1]), p[|p| - 1])
  }

  // ---------------------------------------------------------------- reading

  /** Every `a` followed by `b` becomes `c`, from left to right. */
  function Joined(s: string, a: char, b: char, c: char): string {
    if s == [] then []
    else if |s| >= 2 && s[0] == a && s[1] == b then [c] + Joined(s[2..], a, b, c)
    else [s[0]] + Joined(s[1..], a, b, c)
  }

  /** Section 4: first `~1` to `/`, then `~0` to `~`. */
  function Unescaped(token: string): string {
    Joined(Joined(token, '~', '1', '/'), '~', '0', '~')
  }

  /** The tokens after each `/`, the last one first read off the end. */
  function Tokens(path: string, token: string): Path
    decreases |path|
  {
    if path == [] then []
    else if path[|path| - 1] == '/' then Tokens(path[..|path| - 1], []) + [token]
    else Tokens(path[..|path| - 1], [path[|path| - 1]] + token)
  }

  /** Section 3: a pointer is empty or starts with `/`, and each token is read by section 4. */
  function Decoded(path: string): Option<Path> {
    if path != [] && path[0] != '/' then None else
      var tokens := Tokens(path, []);
      Some(seq(|tokens|, i requires 0 <= i < |tokens| => Unescaped(tokens[i])))
  }

  // ---------------------------------------------------------------- round trip

  /** One escaped character at a time. */
  function Escape1(c: char): string {
    if c == '~' then "~0" else if c == '/' then "~1" else [c]
  }

  function EscapedDirectly(s: string): string {
    if s == [] then [] else Escape1(s[0]) + EscapedDirectly(s[1..])
  }

  lemma ReplacedFirst(s: string, rest: string, c: char, t: string)
    ensures Replaced([], c, t) == []
    ensures |s| == 1 ==> Replaced(s + rest, c, t) == (if s[0] == c then t else s) + Replaced(rest, c, t)
    ensures |s| == 2 && s[0] != c && s[1] != c ==> Replaced(s + rest, c, t) == s + Replaced(rest, c, t)
  {
    if |s| == 1 {
      assert (s + rest)[1..] == rest;
    } else if |s| == 2 && s[0] != c && s[1] != c {
      assert (s + rest)[1..] == [s[1]] + rest;
      assert (s + rest)[1..][1..] == rest;
      assert [s[0]] + ([s[1]] + Replaced(rest, c, t)) == s + Replaced(rest, c, t);
    }
  }

  lemma {:induction false} EscapesDirectly(s: string)
    ensures Escaped(s) == EscapedDirectly(s)
  {
    if s != [] {
      EscapesDirectly(s[1..]);
      var inner := Replaced(s[1..], '~', "~0");
      if s[0] == '~' {
        ReplacedFirst("~0", inner, '/', "~1");
      } else {
        ReplacedFirst([s[0]], inner, '/', "~1");
      }
    }
  }

  /** Undoing the second replacement leaves the first. */
  lemma {:induction false} FirstPass(s: string)
    ensures Joined(EscapedDirectly(s), '~', '1', '/') == Replaced(s, '~', "~0")
  {
    if s != [] {
      FirstPass(s[1..]);
      var rest := EscapedDirectly(s[1..]);
      if s[0] == '~' {
        assert ("~0" + rest)[1..] == "0" + rest;
        assert ("0" + rest)[1..] == rest;
        assert ['~'] + (['0'] + Joined(rest, '~', '1', '/')) == "~0" + Joined(rest, '~', '1', '/');
      } else if s[0] == '/' {
        assert ("~1" + rest)[2..] == rest;
      } else {
        assert ([s[0]] + rest)[1..] == rest;
      }
    }
  }

  lemma {:induction false} SecondPass(s: string)
    ensures Joined(Replaced(s, '~', "~0"), '~', '0', '~') == s
  {
    if s != [] {
      SecondPass(s[1..]);
      var rest := Replaced(s[1..], '~', "~0");
      if s[0] == '~' {
        assert ("~0" + rest)[2..] == rest;
      } else {
        assert ([s[0]] + rest)[1..] == rest;
      }
    }
  }

  lemma UnescapedEscaped(s: string)
    ensures Unescaped(Escaped(s)) == s
  {
    EscapesDirectly(s);
    FirstPass(s);
    SecondPass(s);
  }

  lemma {:induction false} EscapedHasNoSlash(s: string)
    ensures '/' !in EscapedDirectly(s)
  {
    if s != [] { EscapedHasNoSlash(s[1..]); }
  }

  /** A token without `/` is read whole. */
  lemma {:induction false} TokenRead(path: string, token: string, tail: string)
    requires '/' !in token
    ensures Tokens(path + "/" + token, tail) == Tokens(path, []) + [token + tail]
    decreases |token|
  {
    var whole := path + "/" + token;
    if token == [] {
      assert whole[..|whole| - 1] == path;
      assert token + tail == tail;
    } else {
      var front, last := token[..|token| - 1], token[|token| - 1];
      assert last in token;
      assert whole[..|whole| - 1] == path + "/" + front;
      assert '/' !in front;
      TokenRead(path, front, [last] + tail);
      assert front + ([last] + tail) == token + tail;
    }
  }

  lemma {:induction false} TokensOfEncoded(p: Path)
    ensures |Tokens(Encoded(p), [])| == |p|
    ensures forall i :: 0 <= i < |p| ==> Tokens(Encoded(p), [])[i] == Escaped(p[i])
    ensures Encoded(p) != [] ==> Encoded(p)[0] == '/'
    decreases |p|
  {
    if p != [] {
      var front, last := p[..|p| - 1], Escaped(p[|p| - 1]);
      TokensOfEncoded(front);
      EscapesDirectly(p[|p| - 1]);
      EscapedHasNoSlash(p[|p| - 1]);
      TokenRead(Encoded(front), last, []);
      assert last + [] == last;
    }
  }

  /** Reading what was written returns the segments, whatever characters they hold. */
  lemma DecodedEncoded(p: Path)
    ensures Decoded(Encoded(p)) == Some(p)
  {
    TokensOfEncoded(p);
    var tokens := Tokens(Encoded(p), []);
    forall i | 0 <= i < |p| ensures Unescaped(tokens[i]) == p[i] { UnescapedEscaped(p[i]); }
    assert seq(|tokens|, i requires 0 <= i < |tokens| => Unescaped(tokens[i])) == p;
  }

  lemma EncodedApart(p: Path, q: Path)
    requires p != q
    ensures Encoded(p) != Encoded(q)
  {
    DecodedEncoded(p);
    DecodedEncoded(q);
  }

  // ---------------------------------------------------------------- numbers as segments

  function Decimal(n: nat): (s: string)
    ensures s != [] && forall i :: 0 <= i < |s| ==> '0' <= s[i] <= '9'
  {
    if n < 10 then ['0' + n as char] else Decimal(n / 10) + ['0' + (n % 10) as char]
  }

  function Reading(s: string): int
    decreases |s|
  {
    if s == [] then 0 else 10 * Reading(s[..|s| - 1]) + (s[|s| - 1] as int - '0' as int)
  }

  lemma {:induction false} DecimalReads(n: nat)
    ensures Reading(Decimal(n)) == n
  {
    var s := Decimal(n);
    if n < 10 {
      assert s[..0] == [];
    } else {
      DecimalReads(n / 10);
      assert s[..|s| - 1] == Decimal(n / 10);
    }
  }

  lemma DecimalsApart(m: nat, n: nat)
    requires m != n
    ensures Decimal(m) != Decimal(n)
  {
    DecimalReads(m);
    DecimalReads(n);
  }

  lemma {:induction false} DigitsEscapeToThemselves(s: string)
    requires forall i :: 0 <= i < |s| ==> '0' <= s[i] <= '9'
    ensures EscapedDirectly(s) == s
  {
    if s != [] {
      DigitsEscapeToThemselves(s[1..]);
      assert s == [s[0]] + s[1..];
    }
  }

  /** A path formatted as a slash and an index is the pointer with that index as its segment. */
  lemma IndexPath(prefix: string, n: nat)
    ensures ChildPath(prefix, Decimal(n)) == prefix + "/" + Decimal(n)
  {
    EscapesDirectly(Decimal(n));
    DigitsEscapeToThemselves(Decimal(n));
  }
}
