/**
 * Conversation titles of the OpenRouter controller: the fallback title cut from the first
 * message, the prompt asking a model for a title, and the cleanup applied to the model's reply.
 */
module Titles {
  import opened Text
  import opened PromptText

  const MaxTitle: nat := 50
  const Ellipsis: string := "..."

  /** `message.substring(0, 50) + (message.length > 50 ? '...' : '')`. */
  function DefaultTitle(message: string): (t: string)
    ensures |message| <= MaxTitle ==> t == message
    ensures |message| > MaxTitle ==> t == message[..MaxTitle] + Ellipsis
    ensures |t| <= MaxTitle + |Ellipsis|
  {
    Take(message, MaxTitle) + (if |message| > MaxTitle then Ellipsis else "")
  }

  /** The request for a title, with the student's message interpolated. */
  function TitlePrompt(message: string): (p: string)
    ensures |p| == |TitlePromptHead| + |message| + |TitlePromptTail|
    ensures p[..|TitlePromptHead|] == TitlePromptHead
    ensures p[|TitlePromptHead|..|TitlePromptHead| + |message|] == message
    ensures p[|TitlePromptHead| + |message|..] == TitlePromptTail
  {
    TitlePromptHead + message + TitlePromptTail
  }

  predicate IsQuote(c: char) {
    c == '"' || c == '\''
  }

  /**
   * `.replace(/^["']|["']$/g, '')`: one quote, double or single, is removed at the start and
   * one at the end; a lone quote is removed once.
   */
  function StripQuotes(s: string): (r: string)
    ensures |s| - 2 <= |r| <= |s|
    ensures |s| > 0 && IsQuote(s[0]) ==> IsEnd(s[1..], r)
    ensures !(|s| > 0 && IsQuote(s[0])) ==> IsEnd(s, r)
  {
    var a := if |s| > 0 && IsQuote(s[0]) then s[1..] else s;
    if |a| > 0 && IsQuote(a[|a| - 1]) then a[..|a| - 1] else a
  }

  /** `r` is `s` with one trailing quote removed, if it has one. */
  predicate IsEnd(s: string, r: string) {
    if |s| > 0 && IsQuote(s[|s| - 1]) then r == s[..|s| - 1] else r == s
  }

  /** `.trim().replace(/^["']|["']$/g, '').substring(0, 50)`. */
  function CleanTitle(raw: string): (t: string)
    ensures |t| <= MaxTitle
  {
    Take(StripQuotes(Trim(raw)), MaxTitle)
  }

  /** `t` occurs in `s` at position `lo`. */
  predicate SliceAt(t: string, s: string, lo: nat) {
    lo + |t| <= |s| && t == s[lo..lo + |t|]
  }

  /** A slice of a slice is a slice of the whole. */
  lemma SliceOfSlice(a: string, b: string, c: string, i: nat, j: nat)
    requires SliceAt(b, a, i) && SliceAt(c, b, j)
    ensures SliceAt(c, a, i + j)
  {
    forall k | 0 <= k < |c|
      ensures c[k] == a[i + j + k]
    {
      assert c[k] == b[j + k];
    }
  }

  /** Where the trimmed text starts in the original. */
  lemma TrimOffset(s: string) returns (lo: nat)
    ensures SliceAt(Trim(s), s, lo)
  {
    lo := TrimIsSlice(s);
  }

  /** Quote stripping keeps a contiguous piece of its input. */
  lemma StripQuotesIsSlice(s: string) returns (skip: nat)
    ensures SliceAt(StripQuotes(s), s, skip)
  {
    skip := if |s| > 0 && IsQuote(s[0]) then 1 else 0;
  }

  lemma CleanTitleIsPrefix(raw: string)
    ensures SliceAt(CleanTitle(raw), StripQuotes(Trim(raw)), 0)
  {
  }

  /** Three nested slices: the innermost is a slice of the outermost. */
  lemma NestedSlice(raw: string, trimmed: string, stripped: string, t: string, lo0: nat, skip: nat)
    returns (lo: nat)
    requires SliceAt(trimmed, raw, lo0) && SliceAt(stripped, trimmed, skip) && SliceAt(t, stripped, 0)
    ensures lo == lo0 + skip && SliceAt(t, raw, lo)
  {
    SliceOfSlice(trimmed, stripped, t, skip, 0);
    SliceOfSlice(raw, trimmed, t, lo0, skip);
    lo := lo0 + skip;
  }

  /** A cleaned title is a piece of the model's reply, cut out without any other change. */
  lemma CleanTitleIsSlice(raw: string) returns (lo: nat)
    ensures SliceAt(CleanTitle(raw), raw, lo)
  {
    var lo0 := TrimOffset(raw);
    var skip := StripQuotesIsSlice(Trim(raw));
    CleanTitleIsPrefix(raw);
    lo := NestedSlice(raw, Trim(raw), StripQuotes(Trim(raw)), CleanTitle(raw), lo0, skip);
  }

  /** A reply that is already a clean title of at most 50 characters is kept as it is. */
  lemma CleanTitleKeepsCleanTitle(t: string)
    requires Trimmed(t) && |t| <= MaxTitle
    requires t == [] || (!IsQuote(t[0]) && !IsQuote(t[|t| - 1]))
    ensures CleanTitle(t) == t
  {
    TrimOfTrimmed(t);
  }

  lemma StripQuotesOfQuoted(t: string, q: char)
    requires IsQuote(q)
    ensures StripQuotes([q] + t + [q]) == t
  {
    var quoted := [q] + t + [q];
    assert quoted[1..] == t + [q];
    assert (t + [q])[..|t|] == t;
  }

  /** One pair of quotes around a title of at most 50 characters is removed, whatever it holds. */
  lemma CleanTitleUnquotes(t: string, q: char)
    requires |t| <= MaxTitle && IsQuote(q)
    ensures CleanTitle([q] + t + [q]) == t
  {
    var quoted := [q] + t + [q];
    assert !IsWhitespace(q);
    assert quoted[0] == q && quoted[|quoted| - 1] == q;
    TrimOfTrimmed(quoted);
    StripQuotesOfQuoted(t, q);
  }
}
