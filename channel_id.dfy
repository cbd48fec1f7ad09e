/**
 * The local shortcut of `getChannelId` in services/geminiService.ts: the
 * pattern `(?:youtube\.com\/(?:c\/|channel\/|user\/))?([a-zA-Z0-9_-]{24})`
 * is searched in the query, and its capture is taken as the channel id when
 * it starts with "UC".
 */
module ChannelId {
  import opened Wrappers

  /** Length of a channel id and of the pattern's capture. */
  const IdLength: nat := 24

  /** The character class `[a-zA-Z0-9_-]`. */
  predicate IsIdChar(c: char) {
    ('a' <= c <= 'z') || ('A' <= c <= 'Z') || ('0' <= c <= '9') || c == '_' || c == '-'
  }

  /** A run of `IdLength` id characters starts at index `i` of `s`. */
  predicate WindowAt(s: string, i: nat) {
    i + IdLength <= |s| && forall j :: i <= j < i + IdLength ==> IsIdChar(s[j])
  }

  /** The shape of a channel id: 24 id characters starting with "UC". */
  predicate IsChannelIdShape(t: string) {
    |t| == IdLength && t[..2] == "UC" && forall j :: 0 <= j < |t| ==> IsIdChar(t[j])
  }

  /** The first index at or after `i` where a window of id characters starts. */
  function FirstWindowFrom(s: string, i: nat): (w: Option<nat>)
    ensures w.Some? ==> i <= w.value && WindowAt(s, w.value)
    decreases |s| - i
  {
    if i + IdLength > |s| then None
    else if WindowAt(s, i) then Some(i)
    else FirstWindowFrom(s, i + 1)
  }

  /** No window starts between `i` and the one found, nor anywhere when none is found. */
  lemma {:induction false} FirstWindowIsFirst(s: string, i: nat)
    ensures var w := FirstWindowFrom(s, i);
      && (w.Some? ==> forall k :: i <= k < w.value ==> !WindowAt(s, k))
      && (w.None? ==> forall k :: i <= k ==> !WindowAt(s, k))
    decreases |s| - i
  {
    if i + IdLength <= |s| && !WindowAt(s, i) {
      FirstWindowIsFirst(s, i + 1);
    }
  }

  predicate StartsAt(s: string, i: nat, p: string) {
    i + |p| <= |s| && s[i..i + |p|] == p
  }

  /**
   * The length of the optional group `youtube\.com\/(?:c\/|channel\/|user\/)`
   * when one of its alternatives matches at index `i`, tried in that order.
   */
  function UrlPrefixAt(s: string, i: nat): (n: Option<nat>)
    ensures n.Some? ==> 0 < n.value && i + n.value <= |s| && s[i + n.value - 1] == '/'
  {
    if StartsAt(s, i, "youtube.com/c/") then Some(14)
    else if StartsAt(s, i, "youtube.com/channel/") then Some(20)
    else if StartsAt(s, i, "youtube.com/user/") then Some(17)
    else None
  }

  /**
   * The backtracking search of the unanchored pattern from index `i`: the
   * leftmost start position wins; at each position the greedy optional group
   * is tried first and then skipped. The result is the start of capture 1.
   */
  function RegexSearch(s: string, i: nat): (c: Option<nat>)
    requires i <= |s|
    ensures c.Some? ==> WindowAt(s, c.value)
    decreases |s| - i
  {
    var prefix := UrlPrefixAt(s, i);
    if prefix.Some? && WindowAt(s, i + prefix.value) then Some(i + prefix.value)
    else if WindowAt(s, i) then Some(i)
    else if i == |s| then None
    else RegexSearch(s, i + 1)
  }

  /**
   * The optional URL prefix never changes the capture: it is always the first
   * window of 24 id characters, since the prefix ends in '/', which no window
   * can contain.
   */
  lemma {:induction false} RegexSearchIsFirstWindow(s: string, i: nat)
    requires i <= |s|
    ensures RegexSearch(s, i) == FirstWindowFrom(s, i)
    decreases |s| - i
  {
    var prefix := UrlPrefixAt(s, i);
    FirstWindowIsFirst(s, i);
    if prefix.Some? && WindowAt(s, i + prefix.value) {
      var e := i + prefix.value;
      forall k | i <= k < e
        ensures !WindowAt(s, k)
      {
        assert k <= e - 1 < k + IdLength && !IsIdChar(s[e - 1]);
      }
    } else if WindowAt(s, i) {
    } else if i < |s| {
      RegexSearchIsFirstWindow(s, i + 1);
    }
  }

  /**
   * The id the shortcut returns without a remote call: the pattern's capture
   * when it starts with "UC". It is the first window of the query exactly
   * when that window starts with "UC"; a later window is never considered.
   */
  function ShortcutId(query: string): (id: Option<string>)
    ensures var w := FirstWindowFrom(query, 0);
      id == if w.Some? && query[w.value..w.value + 2] == "UC"
            then Some(query[w.value..w.value + IdLength]) else None
    ensures id.Some? ==> IsChannelIdShape(id.value)
  {
    RegexSearchIsFirstWindow(query, 0);
    match RegexSearch(query, 0)
    case None => None
    case Some(i) =>
      var token := query[i..i + IdLength];
      if token[..2] == "UC" then Some(token) else None
  }

  /**
   * A channel id placed after text that holds no window of its own and ends
   * in a character outside the class (or after nothing) is recognised.
   */
  lemma EmbeddedIdRecognised(pre: string, id: string, rest: string)
    requires IsChannelIdShape(id)
    requires pre == [] || !IsIdChar(pre[|pre| - 1])
    requires forall k :: 0 <= k < |pre| ==> !WindowAt(pre, k)
    ensures ShortcutId(pre + id + rest) == Some(id)
  {
    var q := pre + id + rest;
    var n := |pre|;
    assert q[n..n + IdLength] == id;
    assert WindowAt(q, n);
    forall k | 0 <= k < n
      ensures !WindowAt(q, k)
    {
      if k + IdLength <= n {
        assert !WindowAt(pre, k);
        var j :| k <= j < k + IdLength && !IsIdChar(pre[j]);
        assert q[j] == pre[j];
      } else {
        assert q[n - 1] == pre[n - 1];
      }
    }
    FirstWindowIsFirst(q, 0);
    var w := FirstWindowFrom(q, 0);
    assert w == Some(n);
  }

  /** A bare channel id at the start of the query is recognised. */
  lemma BareIdRecognised(id: string, rest: string)
    requires IsChannelIdShape(id)
    ensures ShortcutId(id + rest) == Some(id)
  {
    EmbeddedIdRecognised([], id, rest);
    assert [] + id + rest == id + rest;
  }

  /** The usual channel URL form is recognised. */
  lemma ChannelUrlRecognised(id: string, rest: string)
    requires IsChannelIdShape(id)
    ensures ShortcutId("https://www.youtube.com/channel/" + id + rest) == Some(id)
  {
    var pre := "https://www.youtube.com/channel/";
    forall k | 0 <= k < |pre|
      ensures !WindowAt(pre, k)
    {
      if k <= 7 {
        assert !IsIdChar(pre[7]);
      } else if k <= 11 {
        assert !IsIdChar(pre[11]);
      }
    }
    EmbeddedIdRecognised(pre, id, rest);
  }

  /**
   * An id right after an id character is not recognised: the first window
   * then starts one character earlier, with that character, and the shortcut
   * does not look any further.
   */
  lemma GluedIdNotRecognised(c: char, id: string, rest: string)
    requires IsChannelIdShape(id) && IsIdChar(c)
    ensures ShortcutId([c] + id + rest) == None
  {
    var q := [c] + id + rest;
    assert q[0] == c;
    forall j | 1 <= j < IdLength
      ensures IsIdChar(q[j])
    {
      assert q[j] == id[j - 1];
    }
    assert WindowAt(q, 0);
    assert FirstWindowFrom(q, 0) == Some(0);
    // the window's second character is the id's leading 'U', never the 'C' of "UC"
    assert id[0] == id[..2][0] == 'U';
    assert q[0..2][1] == q[1] == id[0];
  }
}
