/** Options and the few string operations that validation and the YAML subset use. */
module Text {

  datatype Option<+T> = None | Some(value: T)

  /** White space as Go's unicode.IsSpace classifies it. */
  predicate IsSpace(c: char) {
    || c in {' ', '\t', '\n', '\r', '\U{0B}', '\U{0C}', '\U{85}', '\U{A0}', '\U{1680}'}
    || '\U{2000}' <= c <= '\U{200A}'
    || c in {'\U{2028}', '\U{2029}', '\U{202F}', '\U{205F}', '\U{3000}'}
  }

  predicate IsBlank(s: string) {
    forall i :: 0 <= i < |s| ==> IsSpace(s[i])
  }

  function TrimLeft(s: string): string {
    if s != "" && IsSpace(s[0]) then TrimLeft(s[1..]) else s
  }

  function TrimRight(s: string): string {
    if s != "" && IsSpace(s[|s| - 1]) then TrimRight(s[..|s| - 1]) else s
  }

  function TrimSpace(s: string): string {
    TrimRight(TrimLeft(s))
  }

  lemma {:induction false} TrimLeftBlank(s: string)
    ensures IsBlank(s) <==> TrimLeft(s) == ""
    ensures TrimLeft(s) != "" ==> !IsSpace(TrimLeft(s)[0])
  {
    if s != "" && IsSpace(s[0]) {
      TrimLeftBlank(s[1..]);
      assert s == [s[0]] + s[1..];
    }
  }

  lemma {:induction false} TrimRightKeepsHead(s: string)
    requires s != "" && !IsSpace(s[0])
    ensures TrimRight(s) != "" && TrimRight(s)[0] == s[0]
  {
    if IsSpace(s[|s| - 1]) {
      TrimRightKeepsHead(s[..|s| - 1]);
    }
  }

  /** Trimming leaves nothing exactly when every character is white space. */
  lemma TrimSpaceBlank(s: string)
    ensures TrimSpace(s) == "" <==> IsBlank(s)
  {
    TrimLeftBlank(s);
    if TrimLeft(s) != "" {
      TrimRightKeepsHead(TrimLeft(s));
    }
  }

  lemma {:induction false} TrimLeftAppend(s: string, tail: string)
    ensures TrimLeft(s + tail) == if IsBlank(s) then TrimLeft(tail) else TrimLeft(s) + tail
  {
    if s == "" {
      assert s + tail == tail;
    } else {
      assert (s + tail)[1..] == s[1..] + tail;
      if IsSpace(s[0]) {
        TrimLeftAppend(s[1..], tail);
        assert s == [s[0]] + s[1..];
      }
    }
  }

  lemma {:induction false} TrimRightAppendBlank(s: string, tail: string)
    requires IsBlank(tail)
    ensures TrimRight(s + tail) == TrimRight(s)
    decreases |tail|
  {
    if tail == "" {
      assert s + tail == s;
    } else {
      assert (s + tail)[..|s + tail| - 1] == s + tail[..|tail| - 1];
      TrimRightAppendBlank(s, tail[..|tail| - 1]);
    }
  }

  /** White space after the text never changes what is left of it. */
  lemma TrimSpaceAppendBlank(s: string, tail: string)
    requires IsBlank(tail)
    ensures TrimSpace(s + tail) == TrimSpace(s)
  {
    TrimLeftAppend(s, tail);
    TrimLeftBlank(tail);
    TrimLeftBlank(s);
    TrimRightAppendBlank(TrimLeft(s), tail);
  }

  lemma {:induction false} TrimRightPrefix(s: string)
    ensures TrimRight(s) <= s
  {
    if s != "" && IsSpace(s[|s| - 1]) {
      TrimRightPrefix(s[..|s| - 1]);
    }
  }
}
