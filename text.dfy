// String helpers the session server relies on: Python's `str.strip()` (for
// the client's user name) and the accumulation of a streamed text response.

module Text {

  /** Python's `str.isspace` for one character: the Unicode whitespace set.
      It covers the ASCII separators and the Unicode spaces such as the
      no-break and ideographic spaces, but not the zero-width space or the
      byte-order mark, and no letter, digit or underscore. */
  function IsSpace(c: char): (b: bool)
    ensures c in " \t\n\r\U{B}\U{C}\U{A0}\U{3000}" ==> b
    ensures c == '\U{200B}' || c == '\U{FEFF}' ==> !b
    ensures b ==> c <= '\U{3000}' && c != '_' &&
                  !('0' <= c <= '9') && !('A' <= c <= 'Z') && !('a' <= c <= 'z')
  {
    c == ' ' || '\t' <= c <= '\r' || '\U{1C}' <= c <= '\U{1F}' ||
    c == '\U{85}' || c == '\U{A0}' || c == '\U{1680}' ||
    '\U{2000}' <= c <= '\U{200A}' || c == '\U{2028}' || c == '\U{2029}' ||
    c == '\U{202F}' || c == '\U{205F}' || c == '\U{3000}'
  }

  /** `s` without its leading whitespace. */
  function TrimStart(s: string): (r: string)
    ensures |r| <= |s| && r == s[|s| - |r|..]
    ensures forall i :: 0 <= i < |s| - |r| ==> IsSpace(s[i])
    ensures r != [] ==> !IsSpace(r[0])
    decreases |s|
  {
    if s != [] && IsSpace(s[0]) then TrimStart(s[1..]) else s
  }

  /** `s` without its trailing whitespace. */
  function TrimEnd(s: string): (r: string)
    ensures |r| <= |s| && r == s[..|r|]
    ensures forall i :: |r| <= i < |s| ==> IsSpace(s[i])
    ensures r != [] ==> !IsSpace(r[|r| - 1])
    decreases |s|
  {
    if s != [] && IsSpace(s[|s| - 1]) then TrimEnd(s[..|s| - 1]) else s
  }

  /** Python's `str.strip()`: the infix of `s` left after removing
      whitespace at both ends; empty exactly when `s` is all whitespace. */
  function Strip(s: string): (r: string)
    ensures var k := |s| - |TrimStart(s)|;
            k + |r| <= |s| && r == s[k..k + |r|] &&
            (forall i :: 0 <= i < k ==> IsSpace(s[i])) &&
            (forall i :: k + |r| <= i < |s| ==> IsSpace(s[i]))
    ensures r != [] ==> !IsSpace(r[0]) && !IsSpace(r[|r| - 1])
    ensures r == [] <==> forall i :: 0 <= i < |s| ==> IsSpace(s[i])
  {
    TrimEnd(TrimStart(s))
  }

  /** The chunks with the empty ones dropped, in order. */
  function NonEmpty(chunks: seq<string>): seq<string>
  {
    if chunks == [] then []
    else
      var last := chunks[|chunks| - 1];
      NonEmpty(chunks[..|chunks| - 1]) + (if last == "" then [] else [last])
  }

  /** `NonEmpty` keeps exactly the non-empty chunks: everything it returns is
      a non-empty input chunk, every non-empty input chunk is kept, and each as
      many times as it occurs. */
  lemma {:induction false} NonEmptyKeeps(chunks: seq<string>)
    ensures |NonEmpty(chunks)| <= |chunks|
    ensures forall i :: 0 <= i < |NonEmpty(chunks)| ==> NonEmpty(chunks)[i] != "" && NonEmpty(chunks)[i] in chunks
    ensures forall x :: x in chunks && x != "" ==> x in NonEmpty(chunks)
    ensures multiset(NonEmpty(chunks)) == multiset(chunks)["" := 0]
  {
    if chunks != [] {
      var init, last := chunks[..|chunks| - 1], chunks[|chunks| - 1];
      NonEmptyKeeps(init);
      assert chunks == init + [last];
      assert multiset(chunks) == multiset(init) + multiset{last};
      var r := NonEmpty(chunks);
      assert r == NonEmpty(init) + (if last == "" then [] else [last]);
      forall i | 0 <= i < |r| ensures r[i] != "" && r[i] in chunks {
        if i < |NonEmpty(init)| {
          assert r[i] == NonEmpty(init)[i];
        }
      }
    }
  }

  /** One more chunk: a non-empty one is kept at the end, an empty one dropped. */
  lemma NonEmptyAppend(chunks: seq<string>, x: string)
    ensures NonEmpty(chunks + [x]) == NonEmpty(chunks) + (if x == "" then [] else [x])
  {
    var all := chunks + [x];
    assert all[..|all| - 1] == chunks && all[|all| - 1] == x;
  }

  /** The chunks joined in order. */
  function Concat(chunks: seq<string>): string
  {
    if chunks == [] then "" else Concat(chunks[..|chunks| - 1]) + chunks[|chunks| - 1]
  }

  /** Joining distributes over appending one more chunk. */
  lemma ConcatAppend(chunks: seq<string>, x: string)
    ensures Concat(chunks + [x]) == Concat(chunks) + x
  {
    assert (chunks + [x])[..|chunks|] == chunks;
  }

  /** Dropping the empty chunks does not change what they join to. */
  lemma {:induction false} ConcatSkipsEmpty(chunks: seq<string>)
    ensures Concat(NonEmpty(chunks)) == Concat(chunks)
  {
    if chunks != [] {
      var init, last := chunks[..|chunks| - 1], chunks[|chunks| - 1];
      ConcatSkipsEmpty(init);
      if last != "" {
        ConcatAppend(NonEmpty(init), last);
      } else {
        assert NonEmpty(chunks) == NonEmpty(init);
      }
    }
  }
}
