/**
 The string helpers of the Go standard library that the modelled code relies on.
 A text is a sequence of Unicode characters. Every character the code tests for
 is ASCII, so walking over characters and walking over the bytes of valid UTF-8
 take the same branches.
 */
module Text {

  datatype Option<+T> = None | Some(value: T) {
    function GetOr(other: T): T {
      if Some? then value else other
    }
  }

  datatype Result<+T, +E> = Ok(value: T) | Err(error: E)

  /** The Unicode White_Space characters, which strings.TrimSpace removes. */
  predicate IsSpace(c: char) {
    || c in "\t\n\r "
    || c == '\U{0B}' || c == '\U{0C}' || c == '\U{85}' || c == '\U{A0}' || c == '\U{1680}'
    || '\U{2000}' <= c <= '\U{200A}'
    || c == '\U{2028}' || c == '\U{2029}' || c == '\U{202F}' || c == '\U{205F}' || c == '\U{3000}'
  }

  predicate AllSpace(s: string) {
    forall i | 0 <= i < |s| :: IsSpace(s[i])
  }

  /** No space at either end. */
  predicate Trimmed(s: string) {
    s != "" ==> !IsSpace(s[0]) && !IsSpace(s[|s| - 1])
  }

  /** strings.TrimSpace. */
  function Trim(s: string): (r: string)
    ensures Trimmed(r)
    ensures |r| <= |s|
  {
    if s == "" then s
    else if IsSpace(s[0]) then Trim(s[1..])
    else if IsSpace(s[|s| - 1]) then Trim(s[..|s| - 1])
    else s
  }

  lemma SpacesAppend(a: string, b: string)
    requires AllSpace(a) && AllSpace(b)
    ensures AllSpace(a + b)
  {
  }

  /** Trim only takes spaces off the two ends. */
  lemma {:induction false} TrimDecomposes(s: string) returns (before: string, after: string)
    ensures s == before + Trim(s) + after
    ensures AllSpace(before) && AllSpace(after)
  {
    before, after := "", "";
    if s != "" && IsSpace(s[0]) {
      before, after := TrimDecomposes(s[1..]);
      SpacesAppend([s[0]], before);
      calc {
        s;
        [s[0]] + s[1..];
        [s[0]] + (before + Trim(s) + after);
        [s[0]] + before + Trim(s) + after;
      }
      before := [s[0]] + before;
    } else if s != "" && IsSpace(s[|s| - 1]) {
      var n := |s| - 1;
      before, after := TrimDecomposes(s[..n]);
      SpacesAppend(after, [s[n]]);
      calc {
        s;
        s[..n] + [s[n]];
        before + Trim(s) + after + [s[n]];
        before + Trim(s) + (after + [s[n]]);
      }
      after := after + [s[n]];
    } else {
      assert s == before + s + after;
    }
  }

  /** Spaces around a trimmed text are exactly what Trim removes. */
  lemma {:induction false} TrimRemoves(before: string, core: string, after: string)
    requires AllSpace(before) && AllSpace(after)
    requires Trimmed(core)
    ensures Trim(before + core + after) == core
    decreases |before| + |after|
  {
    var s := before + core + after;
    if before != "" {
      assert s[1..] == before[1..] + core + after;
      TrimRemoves(before[1..], core, after);
    } else if after != "" {
      assert s == core + after;
      if core == "" {
        assert s[1..] == before + core + after[1..];
        assert s[0] == after[0];
        TrimRemoves(before, core, after[1..]);
      } else {
        assert s[0] == core[0];
        assert s[|s| - 1] == after[|after| - 1];
        assert s[..|s| - 1] == before + core + after[..|after| - 1];
        TrimRemoves(before, core, after[..|after| - 1]);
      }
    } else {
      assert s == core;
    }
  }

  lemma TrimOfTrimmed(s: string)
    requires Trimmed(s)
    ensures Trim(s) == s
  {
  }

  /** unicode.ToLower where its result can be ASCII; other characters keep a non-ASCII value. */
  function LowerChar(c: char): char {
    if 'A' <= c <= 'Z' then c - 'A' + 'a'
    else if c == '\U{212A}' then 'k'
    else if c == '\U{130}' then 'i'
    else c
  }

  function Lower(s: string): (r: string)
    ensures |r| == |s|
    ensures forall i | 0 <= i < |s| :: r[i] == LowerChar(s[i])
  {
    seq(|s|, i requires 0 <= i < |s| => LowerChar(s[i]))
  }

  /** Simple case folding onto ASCII, as strings.EqualFold uses it against an ASCII text. */
  function FoldChar(c: char): char {
    if 'A' <= c <= 'Z' then c - 'A' + 'a'
    else if c == '\U{17F}' then 's'
    else if c == '\U{212A}' then 'k'
    else c
  }

  /** strings.EqualFold(s, ascii) for an all-ASCII second text. */
  predicate EqualFold(s: string, ascii: string) {
    |s| == |ascii| && forall i | 0 <= i < |s| :: FoldChar(s[i]) == FoldChar(ascii[i])
  }

  /** strings.HasPrefix. */
  predicate HasPrefix(s: string, prefix: string) {
    prefix <= s
  }
}
