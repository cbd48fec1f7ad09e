/**
 * Error translation of services/geminiService.ts (`handleYouTubeApiError`):
 * the message of a failed call is taken from the error body with its markup
 * removed, or else the caller's context message is used.
 */
module ApiErrors {
  import opened Wrappers
  import opened Types

  /**
   * What is left of `s` once `[^>]*>?` has matched at its start: everything
   * after the first '>', or nothing at all when `s` holds no '>'.
   */
  function SkipTag(s: string): (rest: string)
    ensures |rest| <= |s|
  {
    if s == [] then []
    else if s[0] == '>' then s[1..]
    else SkipTag(s[1..])
  }

  /** What is left after a tag is a suffix of the text. */
  lemma {:induction false} SkipTagIsSuffix(s: string)
    ensures SkipTag(s) == s[|s| - |SkipTag(s)|..]
  {
    if s != [] && s[0] != '>' {
      SkipTagIsSuffix(s[1..]);
      assert s[1..][|s[1..]| - |SkipTag(s[1..])|..] == s[|s| - |SkipTag(s[1..])|..];
    }
  }

  /** A tag that is never closed runs to the end of the text. */
  lemma {:induction false} SkipTagUnclosed(s: string)
    requires '>' !in s
    ensures SkipTag(s) == []
  {
    if s != [] {
      assert '>' !in s[1..] by {
        forall k | 0 <= k < |s[1..]| ensures s[1..][k] != '>' {
          assert s[1..][k] == s[k + 1];
        }
      }
      SkipTagUnclosed(s[1..]);
    }
  }

  /** A tag closed by the first '>' ends right after it. */
  lemma {:induction false} SkipTagClosed(body: string, post: string)
    requires '>' !in body
    ensures SkipTag(body + ">" + post) == post
    decreases |body|
  {
    var t := body + ">" + post;
    if body == [] {
      assert t == ['>'] + post;
      assert t[1..] == post;
    } else {
      assert t[0] == body[0];
      assert t[1..] == body[1..] + ">" + post;
      SkipTagClosed(body[1..], post);
    }
  }

  /**
   * `s.replace(/<[^>]*>?/gm, '')`: every match starts at a '<', runs over
   * every character that is not '>' and takes the '>' that ends it, if any.
   */
  function StripTags(s: string): (r: string)
    ensures |r| <= |s|
    decreases |s|
  {
    if s == [] then []
    else if s[0] == '<' then StripTags(SkipTag(s[1..]))
    else [s[0]] + StripTags(s[1..])
  }

  /** The cleaned message holds no '<'. */
  lemma {:induction false} StripTagsLeavesNoTag(s: string)
    ensures '<' !in StripTags(s)
    decreases |s|
  {
    if s != [] {
      if s[0] == '<' {
        StripTagsLeavesNoTag(SkipTag(s[1..]));
      } else {
        StripTagsLeavesNoTag(s[1..]);
        var rest := StripTags(s[1..]);
        assert StripTags(s) == [s[0]] + rest;
      }
    }
  }

  /** A message without a '<' is left as it is. */
  lemma {:induction false} StripTagsKeepsPlainText(s: string)
    requires '<' !in s
    ensures StripTags(s) == s
  {
    if s != [] {
      assert s[0] != '<';
      assert '<' !in s[1..] by {
        forall k | 0 <= k < |s[1..]| ensures s[1..][k] != '<' {
          assert s[1..][k] == s[k + 1];
        }
      }
      StripTagsKeepsPlainText(s[1..]);
      assert s == [s[0]] + s[1..];
    }
  }

  /** Cleaning only removes characters: every character it keeps was in the message. */
  lemma {:induction false} StripTagsKeepsOnlyOriginal(s: string, c: char)
    requires c in StripTags(s)
    ensures c in s
    decreases |s|
  {
    if s[0] == '<' {
      var rest := SkipTag(s[1..]);
      StripTagsKeepsOnlyOriginal(rest, c);
      SkipTagIsSuffix(s[1..]);
      var k :| 0 <= k < |rest| && rest[k] == c;
      assert s[|s| - |rest| + k] == c;
    } else if c != s[0] {
      assert StripTags(s) == [s[0]] + StripTags(s[1..]);
      StripTagsKeepsOnlyOriginal(s[1..], c);
      var k :| 0 <= k < |s[1..]| && s[1..][k] == c;
      assert s[k + 1] == c;
    }
  }

  /** Cleaning is idempotent. */
  lemma StripTagsIdempotent(s: string)
    ensures StripTags(StripTags(s)) == StripTags(s)
  {
    StripTagsLeavesNoTag(s);
    StripTagsKeepsPlainText(StripTags(s));
  }

  /** Text before the first '<' is kept as it is. */
  lemma {:induction false} StripTagsKeepsPlainPrefix(pre: string, s: string)
    requires '<' !in pre
    ensures StripTags(pre + s) == pre + StripTags(s)
    decreases |pre|
  {
    var t := pre + s;
    if pre == [] {
      assert t == s;
    } else {
      assert t[0] == pre[0] && t[0] != '<';
      assert t[1..] == pre[1..] + s;
      assert '<' !in pre[1..] by {
        forall k | 0 <= k < |pre[1..]| ensures pre[1..][k] != '<' {
          assert pre[1..][k] == pre[k + 1];
        }
      }
      StripTagsKeepsPlainPrefix(pre[1..], s);
      calc {
        StripTags(t);
        [t[0]] + StripTags(t[1..]);
        [pre[0]] + (pre[1..] + StripTags(s));
        { assert [pre[0]] + pre[1..] == pre; }
        pre + StripTags(s);
      }
    }
  }

  /** A complete tag `<...>` is removed and the text around it is kept. */
  lemma StripTagsRemovesClosedTag(pre: string, body: string, post: string)
    requires '<' !in pre && '>' !in body
    ensures StripTags(pre + "<" + body + ">" + post) == pre + StripTags(post)
  {
    var inner := body + ">" + post;
    var tag := ['<'] + inner;
    assert pre + "<" + body + ">" + post == pre + tag;
    StripTagsKeepsPlainPrefix(pre, tag);
    assert tag[1..] == inner;
    SkipTagClosed(body, post);
    assert StripTags(tag) == StripTags(SkipTag(inner));
  }

  /** A '<' that is never closed removes all the text after it. */
  lemma StripTagsDropsUnclosedTag(pre: string, tail: string)
    requires '<' !in pre && '>' !in tail
    ensures StripTags(pre + "<" + tail) == pre
  {
    var tag := ['<'] + tail;
    assert pre + "<" + tail == pre + tag;
    StripTagsKeepsPlainPrefix(pre, tag);
    assert tag[1..] == tail;
    SkipTagUnclosed(tail);
    assert StripTags(tag) == [];
    assert pre + [] == pre;
  }

  /**
   * The message `handleYouTubeApiError(response, context)` throws. The `Error`
   * thrown for a truthy `error.message` and an `Error` thrown by parsing are
   * both rethrown by its catch; only a parsed body without a truthy message,
   * or a non-`Error` thrown by parsing, falls through to the context message.
   */
  function ApiErrorMessage(body: ErrorBody, context: string): (m: string)
    ensures body.Parsed? && Truthy(body.message) ==>
              m == StripTags(body.message.value) && '<' !in m
    ensures body.Parsed? && !Truthy(body.message) ==> m == context
    ensures body.Unparsable? && body.raised.ErrorRaised? ==> m == body.raised.message
    ensures body == Unparsable(NonErrorRaised) ==> m == context
  {
    match body
    case Unparsable(ErrorRaised(parseError)) => parseError
    case Unparsable(NonErrorRaised) => context
    case Parsed(message) =>
      if Truthy(message) then
        StripTagsLeavesNoTag(message.value);
        StripTags(message.value)
      else context
  }

  /**
   * The context message is used exactly when the body parses without a truthy
   * message or parsing throws something that is not an `Error`: whenever the
   * message differs from the context, it came from the body.
   */
  lemma ContextOnlyWithoutMessage(body: ErrorBody, context: string)
    requires ApiErrorMessage(body, context) != context
    ensures body.Parsed? ==> Truthy(body.message)
    ensures body.Unparsable? ==> body.raised.ErrorRaised?
  {
  }

  /**
   * What a failed remote call raises: a non-ok response always ends in the
   * `Error` whose message `handleYouTubeApiError` derives from its body; a call
   * that threw passes on what it threw.
   */
  function CallError<T>(response: Response<T>, context: string): (e: Raised)
    requires !response.Delivered?
    ensures response.NotOk? ==> e == ErrorRaised(ApiErrorMessage(response.body, context))
    ensures response.Rejected? ==> e == response.raised
  {
    match response
    case NotOk(body) => ErrorRaised(ApiErrorMessage(body, context))
    case Rejected(raised) => raised
  }
}
