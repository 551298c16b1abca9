/** The string helpers the service takes from Go's standard library. */
module Text {

  /** unicode.IsSpace, the characters strings.TrimSpace removes. */
  predicate IsSpace(c: char) {
    || c == ' ' || '\t' <= c <= '\r' || c == '\U{0085}' || c == '\U{00A0}' || c == '\U{1680}'
    || '\U{2000}' <= c <= '\U{200A}' || c == '\U{2028}' || c == '\U{2029}' || c == '\U{202F}'
    || c == '\U{205F}' || c == '\U{3000}'
  }

  function TrimLeft(s: string): string {
    if s != "" && IsSpace(s[0]) then TrimLeft(s[1..]) else s
  }

  function TrimRight(s: string): string {
    if s != "" && IsSpace(s[|s| - 1]) then TrimRight(s[..|s| - 1]) else s
  }

  function TrimSpace(s: string): string {
    TrimRight(TrimLeft(s))
  }

  predicate Blank(s: string) {
    TrimSpace(s) == ""
  }

  function UpperChar(c: char): char {
    if 'a' <= c <= 'z' then (c as int - 32) as char else c
  }

  function LowerChar(c: char): char {
    if 'A' <= c <= 'Z' then (c as int + 32) as char else c
  }

  function ToUpper(s: string): string {
    seq(|s|, i requires 0 <= i < |s| => UpperChar(s[i]))
  }

  function ToLower(s: string): string {
    seq(|s|, i requires 0 <= i < |s| => LowerChar(s[i]))
  }

  predicate HasPrefix(s: string, prefix: string) {
    prefix <= s
  }

  predicate HasSuffix(s: string, suffix: string) {
    |suffix| <= |s| && s[|s| - |suffix|..] == suffix
  }

  predicate Contains(s: string, part: string) {
    part <= s || (s != "" && Contains(s[1..], part))
  }

  /** filepath.Base: the last element of a slash-separated path. */
  function Base(path: string): (name: string)
    ensures name != "" && (|name| <= |path| || |name| == 1)
  {
    if path == "" then "."
    else
      var stripped := StripSlashes(path);
      if stripped == "" then "/" else LastElement(stripped)
  }

  function StripSlashes(path: string): (r: string)
    ensures |r| <= |path| && (r != "" ==> r[|r| - 1] != '/')
  {
    if path != "" && path[|path| - 1] == '/' then StripSlashes(path[..|path| - 1]) else path
  }

  function LastElement(path: string): (r: string)
    requires path != "" && path[|path| - 1] != '/'
    ensures r != "" && |r| <= |path| && '/' !in r
  {
    if |path| == 1 || path[|path| - 2] == '/' then path[|path| - 1..]
    else LastElement(path[..|path| - 1]) + [path[|path| - 1]]
  }

  predicate Slashes(s: string) {
    forall i | 0 <= i < |s| :: s[i] == '/'
  }

  lemma {:induction false} StripSlashesParts(path: string) returns (slashes: string)
    ensures path == StripSlashes(path) + slashes && Slashes(slashes)
  {
    if path != "" && path[|path| - 1] == '/' {
      var rest := StripSlashesParts(path[..|path| - 1]);
      slashes := rest + "/";
      assert path == path[..|path| - 1] + "/";
    } else {
      slashes := "";
    }
  }

  lemma {:induction false} LastElementParts(path: string) returns (dir: string)
    requires path != "" && path[|path| - 1] != '/'
    ensures path == dir + LastElement(path) && (dir == "" || dir[|dir| - 1] == '/')
  {
    if |path| == 1 || path[|path| - 2] == '/' {
      dir := path[..|path| - 1];
    } else {
      dir := LastElementParts(path[..|path| - 1]);
      assert path == path[..|path| - 1] + [path[|path| - 1]];
    }
  }

  /** The base name of a path is what stands between its last inner slash and the slashes that end it. */
  lemma BaseParts(path: string) returns (dir: string, slashes: string)
    ensures
      if path == "" then Base(path) == "."
      else if Slashes(path) then Base(path) == "/"
      else path == dir + Base(path) + slashes && '/' !in Base(path) && Slashes(slashes) && (dir == "" || dir[|dir| - 1] == '/')
  {
    slashes := StripSlashesParts(path);
    dir := "";
    var stripped := StripSlashes(path);
    if stripped != "" {
      dir := LastElementParts(stripped);
      assert path[|stripped| - 1] != '/';
    } else {
      assert path == slashes;
    }
  }

  /** Nothing but space. */
  predicate Spaces(s: string) {
    forall i | 0 <= i < |s| :: IsSpace(s[i])
  }

  lemma {:induction false} TrimLeftParts(s: string) returns (left: string)
    ensures s == left + TrimLeft(s) && Spaces(left)
    ensures TrimLeft(s) == "" || !IsSpace(TrimLeft(s)[0])
  {
    if s == "" || !IsSpace(s[0]) {
      left := "";
    } else {
      var rest := TrimLeftParts(s[1..]);
      left := [s[0]] + rest;
      assert s == [s[0]] + s[1..];
    }
  }

  lemma {:induction false} TrimRightParts(s: string) returns (right: string)
    ensures s == TrimRight(s) + right && Spaces(right)
    ensures TrimRight(s) == "" || !IsSpace(TrimRight(s)[|TrimRight(s)| - 1])
  {
    if s == "" || !IsSpace(s[|s| - 1]) {
      right := "";
    } else {
      var rest := TrimRightParts(s[..|s| - 1]);
      right := rest + [s[|s| - 1]];
      assert s == s[..|s| - 1] + [s[|s| - 1]];
    }
  }

  /** Trimming takes space off both ends, and all of it. */
  lemma TrimParts(s: string) returns (left: string, right: string)
    ensures s == left + TrimSpace(s) + right && Spaces(left) && Spaces(right)
    ensures var m := TrimSpace(s); m == "" || (!IsSpace(m[0]) && !IsSpace(m[|m| - 1]))
  {
    left := TrimLeftParts(s);
    right := TrimRightParts(TrimLeft(s));
    var m := TrimSpace(s);
    assert m != "" ==> m[0] == TrimLeft(s)[0];
  }

  /** A string is blank exactly when it has nothing but space. */
  lemma BlankExactly(s: string)
    ensures Blank(s) <==> Spaces(s)
  {
    var left, right := TrimParts(s);
    var m := TrimSpace(s);
    if m != "" {
      assert s[|left|] == m[0];
    } else {
      assert s == left + right;
    }
  }

  /** The part stands at this place of the string. */
  predicate StandsAt(s: string, i: nat, part: string) {
    i + |part| <= |s| && s[i..i + |part|] == part
  }

  lemma StandsLater(s: string, i: nat, part: string)
    requires s != ""
    ensures StandsAt(s[1..], i, part) <==> StandsAt(s, i + 1, part)
  {
    if i + |part| <= |s| - 1 {
      assert s[i + 1..i + 1 + |part|] == s[1..][i..i + |part|];
    }
  }

  lemma {:induction false} ContainsExactly(s: string, part: string)
    ensures Contains(s, part) <==> exists i: nat :: StandsAt(s, i, part)
  {
    assert StandsAt(s, 0, part) <==> part <= s;
    if s == "" {
      assert forall i: nat :: StandsAt(s, i, part) ==> i == 0;
    } else {
      ContainsExactly(s[1..], part);
      if i: nat :| StandsAt(s[1..], i, part) { StandsLater(s, i, part); }
      if i: nat :| StandsAt(s, i, part) && i > 0 { StandsLater(s, i - 1, part); }
    }
  }

  /** A string with no space at either end is its own trimmed form. */
  lemma PlainTrimmed(s: string)
    requires s == "" || (!IsSpace(s[0]) && !IsSpace(s[|s| - 1]))
    ensures TrimSpace(s) == s
  {}

  lemma TrimmedExactly(s: string)
    ensures TrimSpace(s) == s <==> s == "" || (!IsSpace(s[0]) && !IsSpace(s[|s| - 1]))
  {
    if s != "" && !IsSpace(s[0]) && !IsSpace(s[|s| - 1]) { PlainTrimmed(s); }
    var left, right := TrimParts(s);
  }

  /** Upper-casing commutes with trimming away nothing: an owner type already spelled in letters is untouched. */
  lemma UpperOfTrim(s: string, word: string)
    requires ToUpper(s) == word && word != ""
    requires 'A' <= word[0] <= 'Z' && 'A' <= word[|word| - 1] <= 'Z'
    ensures ToUpper(TrimSpace(s)) == word
  {}
}
