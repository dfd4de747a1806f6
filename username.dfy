/**
 * The username check of the web client (apps/web/src/lib/tma.ts): a
 * Telegram username is 5 to 32 ASCII letters, digits and underscores. The
 * forms that add a channel or an admin strip one `@`, trim the input and
 * test it against this pattern before sending it to the backend.
 */
module TmaUsername {
  import opened Wrappers
  import opened JsText
  import ChannelHelpers

  /** The class `[a-zA-Z0-9_]`. */
  predicate UsernameChar(c: char)
  {
    'a' <= c <= 'z' || 'A' <= c <= 'Z' || '0' <= c <= '9' || c == '_'
  }

  function AllUsernameChars(s: string): (b: bool)
    ensures b <==> forall i :: 0 <= i < |s| ==> UsernameChar(s[i])
  {
    if s == [] then true
    else
      var rest := AllUsernameChars(s[1..]);
      assert rest <==> forall i :: 1 <= i < |s| ==> UsernameChar(s[i]) by {
        assert forall i :: 1 <= i < |s| ==> s[1..][i - 1] == s[i];
      }
      UsernameChar(s[0]) && rest
  }

  /**
   * `usernameRegex.test(s)` for `/^[a-zA-Z0-9_]{5,32}$/`: the whole string,
   * 5 to 32 characters of the class. Every character of the class is a
   * single UTF-16 code unit, so counting characters counts code units.
   */
  function MatchesUsername(s: string): (b: bool)
    ensures b <==> 5 <= |s| <= 32 && forall i :: 0 <= i < |s| ==> UsernameChar(s[i])
  {
    5 <= |s| <= 32 && AllUsernameChars(s)
  }

  /** A string holding `@`, `-`, `.`, `/` or whitespace is refused. */
  lemma RejectedInputs(s: string, i: nat)
    requires i < |s| && (s[i] in "@-./" || IsJsWhitespace(s[i]))
    ensures !MatchesUsername(s)
  {
    assert !UsernameChar(s[i]);
  }

  /** One character too few or too many is refused, whatever the characters. */
  lemma RejectedLengths(s: string)
    ensures |s| == 4 || |s| == 33 ==> !MatchesUsername(s)
  {
  }

  /** What the forms test: the input with its first `@` removed, then trimmed. */
  function TypedUsername(input: string): (u: string)
    ensures |u| <= |input|
  {
    Trim(ReplaceFirst(input, "@", ""))
  }

  /** Typing a valid username with or without its `@` gives that username. */
  lemma TypedHandle(u: string)
    requires MatchesUsername(u)
    ensures TypedUsername(u) == u
    ensures TypedUsername("@" + u) == u
  {
    assert '@' !in u;
    RemoveFirstChar(u, '@');
    assert !IsJsWhitespace(u[0]) && !IsJsWhitespace(u[|u| - 1]) by {
      assert UsernameChar(u[0]) && UsernameChar(u[|u| - 1]);
    }
    TrimOfTrimmed(u);
    var s := "@" + u;
    FindChar(s, '@');
    assert s[0] == '@';
    assert IndexOf(s, "@") == Some(0);
    assert s[1..] == u;
  }

  /**
   * A username the client accepts is taken by the backend unchanged: its
   * `@`-stripping and last-segment steps leave it as it is, and the stored
   * link is `https://t.me/` followed by it.
   */
  lemma AcceptedUsernameReachesBackend(u: string)
    requires MatchesUsername(u)
    ensures ChannelHelpers.ChannelUsername(u) == u
    ensures ChannelHelpers.TgLink(ChannelHelpers.ChannelUsername(u)) == "https://t.me/" + u
  {
    assert '@' !in u && '/' !in u by {
      forall k | 0 <= k < |u| ensures u[k] != '@' && u[k] != '/' {
        assert UsernameChar(u[k]);
      }
    }
    ChannelHelpers.UsernameOfHandle(u);
  }
}
