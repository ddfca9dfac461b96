/**
 * The JavaScript string operations the program relies on, written out over `seq<char>`:
 * `String.prototype.trim`, `startsWith`, `substring(0, n)`, `Array.prototype.join`, and the
 * global regular-expression deletions that strip Markdown code fences from model output.
 */
module Text {

  /** The characters `trim()` removes: ECMAScript WhiteSpace and LineTerminator code points. */
  predicate IsWhitespace(c: char) {
    || c == ' ' || c == '\t' || c == '\n' || c == '\r' || c == '\U{B}' || c == '\U{C}'
    || c == '\U{A0}' || c == '\U{FEFF}' || c == '\U{1680}' || ('\U{2000}' <= c <= '\U{200A}')
    || c == '\U{2028}' || c == '\U{2029}' || c == '\U{202F}' || c == '\U{205F}' || c == '\U{3000}'
  }

  /** Neither end of `s` is whitespace: what `trim()` guarantees of its result. */
  predicate Trimmed(s: string) {
    s == [] || (!IsWhitespace(s[0]) && !IsWhitespace(s[|s| - 1]))
  }

  /** `s` with its leading whitespace removed; exactly whitespace is dropped. */
  function TrimStart(s: string): (r: string)
    ensures |r| <= |s| && r == s[|s| - |r|..]
    ensures r == [] || !IsWhitespace(r[0])
    ensures forall i :: 0 <= i < |s| - |r| ==> IsWhitespace(s[i])
  {
    if s != [] && IsWhitespace(s[0]) then TrimStart(s[1..]) else s
  }

  /** `s` with its trailing whitespace removed; exactly whitespace is dropped. */
  function TrimEnd(s: string): (r: string)
    ensures |r| <= |s| && r == s[..|r|]
    ensures r == [] || !IsWhitespace(r[|r| - 1])
    ensures forall i :: |r| <= i < |s| ==> IsWhitespace(s[i])
  {
    if s != [] && IsWhitespace(s[|s| - 1]) then TrimEnd(s[..|s| - 1]) else s
  }

  /** `s.trim()`. */
  function Trim(s: string): (r: string)
    ensures Trimmed(r) && |r| <= |s|
  {
    TrimEnd(TrimStart(s))
  }

  /** `trim()` takes a contiguous slice of its argument and drops only whitespace around it. */
  lemma TrimIsSlice(s: string) returns (lo: nat)
    ensures lo + |Trim(s)| <= |s| && Trim(s) == s[lo..lo + |Trim(s)|]
    ensures forall i :: 0 <= i < lo ==> IsWhitespace(s[i])
    ensures forall i :: lo + |Trim(s)| <= i < |s| ==> IsWhitespace(s[i])
  {
    var t := TrimStart(s);
    lo := |s| - |t|;
    assert t == s[lo..];
    var r := TrimEnd(t);
    assert r == t[..|r|] == s[lo..lo + |r|];
    forall i | lo + |r| <= i < |s| ensures IsWhitespace(s[i]) {
      assert s[i] == t[i - lo];
    }
  }

  /** A string without whitespace at either end is left alone by `trim()`. */
  lemma TrimOfTrimmed(s: string)
    requires Trimmed(s)
    ensures Trim(s) == s
  {
  }

  /** `s.startsWith(prefix)`. */
  predicate StartsWith(s: string, prefix: string) {
    prefix <= s
  }

  /** `s.substring(0, n)`: the first `n` characters, or all of `s` when it is shorter. */
  function Take(s: string, n: nat): (r: string)
    ensures r <= s && |r| <= n
    ensures |r| == if |s| <= n then |s| else n
  {
    if |s| <= n then s else s[..n]
  }

  /** `m` occurs somewhere in `s` as a contiguous substring. */
  predicate IsInfix(m: string, s: string)
    decreases |s|
  {
    m <= s || (s != [] && IsInfix(m, s[1..]))
  }

  /** A substring of a string without `m` does not contain `m` either. */
  lemma {:induction false} NoInfixInSlice(m: string, s: string, lo: nat, hi: nat)
    requires lo <= hi <= |s|
    requires IsInfix(m, s[lo..hi])
    ensures IsInfix(m, s)
    decreases hi - lo
  {
    if m <= s[lo..hi] {
      PrefixOfSliceIsInfix(m, s, lo, hi);
    } else {
      assert s[lo..hi] != [] && IsInfix(m, s[lo..hi][1..]);
      assert s[lo..hi][1..] == s[lo + 1..hi];
      NoInfixInSlice(m, s, lo + 1, hi);
    }
  }

  lemma {:induction false} PrefixOfSliceIsInfix(m: string, s: string, lo: nat, hi: nat)
    requires lo <= hi <= |s| && m <= s[lo..hi]
    ensures IsInfix(m, s)
    decreases lo
  {
    if lo == 0 {
      assert m <= s;
    } else {
      assert s[1..][lo - 1..hi - 1] == s[lo..hi];
      PrefixOfSliceIsInfix(m, s[1..], lo - 1, hi - 1);
    }
  }

  /**
   * `s.replace(/M\n?/g, '')` for a literal marker M: scanning left to right, every occurrence of
   * `marker`, together with one newline right after it if there is one, is deleted; the scan
   * resumes after what was deleted, so occurrences do not overlap.
   */
  function DeleteMarkers(s: string, marker: string): (r: string)
    requires marker != []
    ensures |r| <= |s|
    decreases |s|
  {
    if s == [] then []
    else if marker <= s then
      var rest := s[|marker|..];
      if rest != [] && rest[0] == '\n' then DeleteMarkers(rest[1..], marker) else DeleteMarkers(rest, marker)
    else [s[0]] + DeleteMarkers(s[1..], marker)
  }

  /** Text that cannot start a marker passes through the deletion unchanged. */
  lemma {:induction false} DeleteMarkersSkipsPlainText(x: string, y: string, marker: string)
    requires marker != []
    requires forall i :: 0 <= i < |x| ==> x[i] != marker[0]
    ensures DeleteMarkers(x + y, marker) == x + DeleteMarkers(y, marker)
    decreases |x|
  {
    if x != [] {
      assert (x + y)[0] == x[0] != marker[0];
      assert !(marker <= x + y);
      assert (x + y)[1..] == x[1..] + y;
      DeleteMarkersSkipsPlainText(x[1..], y, marker);
      assert DeleteMarkers(x + y, marker) == [x[0]] + DeleteMarkers(x[1..] + y, marker);
      assert [x[0]] + x[1..] == x;
    } else {
      assert x + y == y;
    }
  }

  /** Text shorter than the marker cannot contain it and is left unchanged. */
  lemma {:induction false} DeleteMarkersKeepsShortText(s: string, marker: string)
    requires marker != [] && |s| < |marker|
    ensures DeleteMarkers(s, marker) == s
    decreases |s|
  {
    if s != [] {
      assert !(marker <= s);
      DeleteMarkersKeepsShortText(s[1..], marker);
      assert [s[0]] + s[1..] == s;
    }
  }

  const Fence: string := "```"
  const JsonFence: string := "```json"

  /** After deleting every "```" no "```" is left: a kept backtick is never followed by two more. */
  lemma {:induction false} NoFenceAfterDeletion(s: string)
    ensures !IsInfix(Fence, DeleteMarkers(s, Fence))
    decreases |s|
  {
    if s == [] {
    } else if Fence <= s {
      var rest := s[3..];
      if rest != [] && rest[0] == '\n' {
        NoFenceAfterDeletion(rest[1..]);
      } else {
        NoFenceAfterDeletion(rest);
      }
    } else {
      var t := DeleteMarkers(s[1..], Fence);
      assert DeleteMarkers(s, Fence) == [s[0]] + t;
      NoFenceAfterDeletion(s[1..]);
      assert ([s[0]] + t)[1..] == t;
      if s[0] == '`' {
        // `s` does not start with three backticks, so `t` does not start with two
        if |s| >= 2 && s[1] != '`' {
          assert !(Fence <= s[1..]);
          assert t == [s[1]] + DeleteMarkers(s[2..], Fence);
        } else if |s| >= 2 {
          var u := s[2..];
          assert s[1..][1..] == u;
          assert !(Fence <= s[1..]);
          assert t == ['`'] + DeleteMarkers(u, Fence);
          assert u == [] || u[0] != '`';
          if u != [] {
            assert !(Fence <= u);
            assert DeleteMarkers(u, Fence) == [u[0]] + DeleteMarkers(u[1..], Fence);
          }
        }
      }
    }
  }

  /**
   * The cleanup applied to generated JSON before parsing:
   * `text.replace(/```json\n?/g, '').replace(/```\n?/g, '').trim()`.
   */
  function StripCodeFences(text: string): (r: string)
    ensures |r| <= |text| && Trimmed(r)
  {
    Trim(DeleteMarkers(DeleteMarkers(text, JsonFence), Fence))
  }

  /** No code-fence marker survives the cleanup. */
  lemma NoFenceAfterStrip(text: string)
    ensures !IsInfix(Fence, StripCodeFences(text))
  {
    NoFenceAfterDeletion(DeleteMarkers(text, JsonFence));
    NoInfixAfterTrim(Fence, DeleteMarkers(DeleteMarkers(text, JsonFence), Fence));
  }

  /** Trimming cannot create an occurrence that was not there. */
  lemma NoInfixAfterTrim(m: string, s: string)
    requires !IsInfix(m, s)
    ensures !IsInfix(m, Trim(s))
  {
    var lo := TrimIsSlice(s);
    if IsInfix(m, Trim(s)) {
      NoInfixInSlice(m, s, lo, lo + |Trim(s)|);
    }
  }

  /** Unwrapping a ```json fence: a payload wrapped by a model in a fenced block comes back exactly. */
  lemma FencedPayloadRoundTrip(payload: string)
    requires forall i :: 0 <= i < |payload| ==> payload[i] != '`'
    requires Trimmed(payload)
    ensures StripCodeFences(JsonFence + "\n" + payload + "\n" + Fence) == payload
  {
    OpeningFenceDeleted(payload);
    ClosingFenceKept(payload);
    ClosingFenceDeleted(payload);
    TrimmedWithNewline(payload);
  }

  lemma OpeningFenceDeleted(payload: string)
    ensures DeleteMarkers(JsonFence + "\n" + payload + "\n" + Fence, JsonFence)
         == DeleteMarkers(payload + "\n" + Fence, JsonFence)
  {
    var t := payload + "\n" + Fence;
    assert JsonFence + "\n" + payload + "\n" + Fence == JsonFence + "\n" + t;
    MarkerAndNewlineDeleted(JsonFence, t);
  }

  lemma ClosingFenceKept(payload: string)
    requires forall i :: 0 <= i < |payload| ==> payload[i] != '`'
    ensures DeleteMarkers(payload + "\n" + Fence, JsonFence) == payload + "\n" + Fence
  {
    var closing := "\n" + Fence;
    assert payload + "\n" + Fence == payload + closing;
    assert JsonFence[0] == '`';
    DeleteMarkersSkipsPlainText(payload, closing, JsonFence);
    DeleteMarkersKeepsShortText(closing, JsonFence);
  }

  /** A marker and the newline after it are deleted together. */
  lemma MarkerAndNewlineDeleted(marker: string, t: string)
    requires marker != []
    ensures DeleteMarkers(marker + "\n" + t, marker) == DeleteMarkers(t, marker)
  {
    var s := marker + "\n" + t;
    assert marker <= s;
    assert s[|marker|..] == "\n" + t;
    assert ("\n" + t)[1..] == t;
  }

  lemma ClosingFenceDeleted(payload: string)
    requires forall i :: 0 <= i < |payload| ==> payload[i] != '`'
    ensures DeleteMarkers(payload + "\n" + Fence, Fence) == payload + "\n"
  {
    var closing := "\n" + Fence;
    assert payload + "\n" + Fence == payload + closing;
    DeleteMarkersSkipsPlainText(payload, closing, Fence);
    LoneClosingFenceDeleted();
  }

  lemma LoneClosingFenceDeleted()
    ensures DeleteMarkers("\n" + Fence, Fence) == "\n"
  {
    DeleteMarkersSkipsPlainText("\n", Fence, Fence);
    assert DeleteMarkers(Fence, Fence) == [];
  }

  lemma TrimmedWithNewline(p: string)
    requires Trimmed(p)
    ensures Trim(p + "\n") == p
  {
    if p == [] {
      assert TrimStart("\n") == [];
    } else {
      assert TrimStart(p + "\n") == p + "\n";
      assert (p + "\n")[..|p|] == p;
      assert TrimEnd(p + "\n") == TrimEnd(p) == p;
    }
  }

  /** `items.join(sep)`. */
  function Join(items: seq<string>, sep: string): (r: string)
    ensures items == [] ==> r == []
    decreases |items|
  {
    if items == [] then []
    else if |items| == 1 then items[0]
    else items[0] + sep + Join(items[1..], sep)
  }

  /** Joining one more item appends the separator and that item. */
  lemma {:induction false} JoinSnoc(items: seq<string>, item: string, sep: string)
    requires items != []
    ensures Join(items + [item], sep) == Join(items, sep) + sep + item
    decreases |items|
  {
    if |items| == 1 {
      assert (items + [item])[1..] == [item];
    } else {
      assert (items + [item])[1..] == items[1..] + [item];
      JoinSnoc(items[1..], item, sep);
    }
  }
}
