/**
 * Channel records of the channel file and how `add_channel` builds a new one:
 * the name is stripped of surrounding whitespace, the message has every literal
 * backslash-n turned into a line break, and the post URL is derived from the id.
 */
module Channels {
  import opened Wrappers

  /** One entry of the channel file (keys channel_name, url, channel_id, message, chance). */
  datatype Channel = Channel(name: string, url: string, channelId: int, message: string, chance: int)

  const UrlPrefix: string := "https://discord.com/api/v9/channels/"
  const UrlSuffix: string := "/messages"

  // ---------------------------------------------------------------------------
  // Python's str.strip() without arguments
  // ---------------------------------------------------------------------------

  /** Python's `str.isspace` for one character. */
  predicate IsSpace(c: char)
  {
    ('\t' <= c <= '\r') || ('\U{1C}' <= c <= '\U{1F}') || c == ' '
    || c == '\U{85}' || c == '\U{A0}' || c == '\U{1680}'
    || ('\U{2000}' <= c <= '\U{200A}') || c == '\U{2028}' || c == '\U{2029}'
    || c == '\U{202F}' || c == '\U{205F}' || c == '\U{3000}'
  }

  /** Number of whitespace characters at the start of `s`. */
  function LeadingSpaces(s: string): (n: nat)
    ensures n <= |s|
    ensures forall i :: 0 <= i < n ==> IsSpace(s[i])
    ensures n < |s| ==> !IsSpace(s[n])
  {
    if s == [] || !IsSpace(s[0]) then 0 else 1 + LeadingSpaces(s[1..])
  }

  /** Number of whitespace characters at the end of `s`. */
  function TrailingSpaces(s: string): (n: nat)
    ensures n <= |s|
    ensures forall i :: |s| - n <= i < |s| ==> IsSpace(s[i])
    ensures n < |s| ==> !IsSpace(s[|s| - 1 - n])
  {
    if s == [] || !IsSpace(s[|s| - 1]) then 0 else 1 + TrailingSpaces(s[..|s| - 1])
  }

  /**
   * `r` is what remains of `s` when the first `a` characters and everything
   * after `r` are cut off, all of them whitespace.
   */
  predicate StrippedFrom(s: string, a: nat, r: string)
  {
    a + |r| <= |s| && r == s[a..a + |r|]
    && (forall i :: 0 <= i < a ==> IsSpace(s[i]))
    && (forall i :: a + |r| <= i < |s| ==> IsSpace(s[i]))
  }

  /**
   * `s.strip()`: the longest infix of `s` that neither starts nor ends with
   * whitespace, everything cut off on either side being whitespace.
   */
  function Strip(s: string): (r: string)
    ensures r == [] || (!IsSpace(r[0]) && !IsSpace(r[|r| - 1]))
    ensures StrippedFrom(s, LeadingSpaces(s), r)
  {
    var a := LeadingSpaces(s);
    if a == |s| then
      []
    else
      var t := TrailingSpaces(s[a..]);
      var r := s[a..|s| - t];
      assert forall i :: a + |r| <= i < |s| ==> s[i] == s[a..][i - a];
      r
  }

  /** Stripping twice strips nothing more. */
  lemma StripIdempotent(s: string)
    ensures Strip(Strip(s)) == Strip(s)
  {
    var r := Strip(s);
    var r2 := Strip(r);
    if r != [] {
      assert LeadingSpaces(r) == 0;
    }
  }

  // ---------------------------------------------------------------------------
  // The message prompt: literal backslash-n becomes a line break
  // ---------------------------------------------------------------------------

  /** A literal backslash followed by `n` starts at position `i` of `s`. */
  predicate EscapeAt(s: string, i: int)
  {
    0 <= i && i + 1 < |s| && s[i] == '\\' && s[i + 1] == 'n'
  }

  predicate NoEscapes(s: string)
  {
    forall i :: 0 <= i < |s| ==> !EscapeAt(s, i)
  }

  /**
   * `s.replace("\\n", "\n")`: Python scans left to right and replaces
   * non-overlapping occurrences of the two-character pattern.
   */
  function Unescape(s: string): (r: string)
    ensures |r| <= |s|
    ensures |s| > 0 ==> |r| > 0 && r[0] == (if EscapeAt(s, 0) then '\n' else s[0])
  {
    if |s| < 2 then s
    else if EscapeAt(s, 0) then "\n" + Unescape(s[2..])
    else [s[0]] + Unescape(s[1..])
  }

  /** How a user writes a multi-line message at the one-line prompt. */
  function Escape(m: string): (s: string)
    ensures |s| >= |m|
    ensures |m| > 0 ==> |s| > 0 && s[0] == (if m[0] == '\n' then '\\' else m[0])
  {
    if m == [] then []
    else if m[0] == '\n' then "\\n" + Escape(m[1..])
    else [m[0]] + Escape(m[1..])
  }

  /** After the replacement, no literal backslash-n is left in the message. */
  lemma {:induction false} UnescapeLeavesNoEscapes(s: string)
    ensures NoEscapes(Unescape(s))
  {
    if |s| < 2 {
    } else if EscapeAt(s, 0) {
      UnescapeLeavesNoEscapes(s[2..]);
      var r := Unescape(s);
      forall i ensures !EscapeAt(r, i) {
        if i >= 1 { assert EscapeAt(r, i) ==> EscapeAt(Unescape(s[2..]), i - 1); }
      }
    } else {
      var t := Unescape(s[1..]);
      UnescapeLeavesNoEscapes(s[1..]);
      var r := Unescape(s);
      forall i ensures !EscapeAt(r, i) {
        if i >= 1 { assert EscapeAt(r, i) ==> EscapeAt(t, i - 1); }
        if i == 0 && s[0] == '\\' { assert r[1] == t[0]; }
      }
    }
  }

  /** A message without backslash-n is taken over unchanged. */
  lemma {:induction false} UnescapeIdentity(s: string)
    requires NoEscapes(s)
    ensures Unescape(s) == s
  {
    if |s| >= 2 {
      assert !EscapeAt(s, 0);
      assert NoEscapes(s[1..]) by {
        forall i ensures !EscapeAt(s[1..], i) {
          assert EscapeAt(s[1..], i) ==> EscapeAt(s, i + 1);
        }
      }
      UnescapeIdentity(s[1..]);
    }
  }

  /**
   * Typing `Escape(m)` at the prompt yields exactly `m`, for every message
   * that does not itself contain a literal backslash-n.
   */
  lemma {:induction false} UnescapeEscape(m: string)
    requires NoEscapes(m)
    ensures Unescape(Escape(m)) == m
  {
    if m != [] {
      assert NoEscapes(m[1..]) by {
        forall i ensures !EscapeAt(m[1..], i) {
          assert EscapeAt(m[1..], i) ==> EscapeAt(m, i + 1);
        }
      }
      UnescapeEscape(m[1..]);
      var e := Escape(m[1..]);
      if m[0] == '\n' {
        assert Escape(m) == "\\n" + e;
        assert Escape(m)[2..] == e;
      } else {
        assert Escape(m) == [m[0]] + e;
        assert Escape(m)[1..] == e;
        if |Escape(m)| >= 2 && m[0] == '\\' {
          assert |m| >= 2;
          assert !EscapeAt(m, 0);
          assert !EscapeAt(Escape(m), 0);
        }
      }
    }
  }

  /** No line break: every line `input()` returns. */
  predicate NoLineBreaks(s: string)
  {
    forall i :: 0 <= i < |s| ==> s[i] != '\n'
  }

  /**
   * Conversely, writing the stored message back in prompt form gives exactly
   * what was typed, for every line the prompt can deliver: the replacement
   * and its inverse lose nothing in either direction.
   */
  lemma {:induction false} EscapeUnescape(s: string)
    requires NoLineBreaks(s)
    ensures Escape(Unescape(s)) == s
  {
    if s == [] {
    } else if |s| < 2 {
      assert Escape(s) == [s[0]] + Escape(s[1..]);
    } else if EscapeAt(s, 0) {
      var t := Unescape(s[2..]);
      EscapeUnescape(s[2..]);
      assert ("\n" + t)[1..] == t;
      assert s == "\\n" + s[2..];
    } else {
      var t := Unescape(s[1..]);
      EscapeUnescape(s[1..]);
      assert ([s[0]] + t)[1..] == t;
      assert s == [s[0]] + s[1..];
    }
  }

  // ---------------------------------------------------------------------------
  // Decimal rendering of the channel id (Python's str(int)) and the post URL
  // ---------------------------------------------------------------------------

  predicate IsDigit(c: char) { '0' <= c <= '9' }

  predicate AllDigits(s: string) { forall i :: 0 <= i < |s| ==> IsDigit(s[i]) }

  function DigitChar(d: nat): (c: char)
    requires d < 10
    ensures IsDigit(c) && c as int - '0' as int == d
  {
    ['0', '1', '2', '3', '4', '5', '6', '7', '8', '9'][d]
  }

  /** Decimal digits of `n`, most significant first, no leading zero. */
  function NatToDecimal(n: nat): (s: string)
    ensures |s| >= 1 && AllDigits(s)
    ensures |s| > 1 ==> s[0] != '0'
  {
    if n < 10 then [DigitChar(n)] else NatToDecimal(n / 10) + [DigitChar(n % 10)]
  }

  /** `str(n)` for a Python int: a minus sign before the digits of a negative id. */
  function IntToDecimal(n: int): string
  {
    if n < 0 then "-" + NatToDecimal(-n) else NatToDecimal(n)
  }

  /** The value of a string of decimal digits. */
  function DecimalValue(s: string): nat
    requires AllDigits(s)
  {
    if s == [] then 0 else 10 * DecimalValue(s[..|s| - 1]) + (s[|s| - 1] as int - '0' as int)
  }

  /** Reads an optionally negative decimal integer, as produced by IntToDecimal. */
  function ParseDecimal(s: string): Option<int>
  {
    if |s| >= 2 && s[0] == '-' && AllDigits(s[1..]) then Some(-(DecimalValue(s[1..]) as int))
    else if |s| >= 1 && AllDigits(s) then Some(DecimalValue(s))
    else None
  }

  lemma {:induction false} DecimalValueOfNat(n: nat)
    ensures DecimalValue(NatToDecimal(n)) == n
  {
    if n >= 10 {
      var s := NatToDecimal(n);
      assert s[..|s| - 1] == NatToDecimal(n / 10);
      DecimalValueOfNat(n / 10);
    }
  }

  /** Reading back the rendered id gives the id. */
  lemma IntToDecimalRoundTrip(n: int)
    ensures ParseDecimal(IntToDecimal(n)) == Some(n)
  {
    if n < 0 {
      var d := NatToDecimal(-n);
      var s := "-" + d;
      assert s[1..] == d;
      DecimalValueOfNat(-n);
    } else {
      var d := NatToDecimal(n);
      assert d[0] != '-' by { assert IsDigit(d[0]); }
      DecimalValueOfNat(n);
    }
  }

  /** `f"https://discord.com/api/v9/channels/{channel_id}/messages"`. */
  function ChannelUrl(channelId: int): (url: string)
    ensures |url| > |UrlPrefix| + |UrlSuffix|
    ensures url[..|UrlPrefix|] == UrlPrefix && url[|url| - |UrlSuffix|..] == UrlSuffix
  {
    UrlPrefix + IntToDecimal(channelId) + UrlSuffix
  }

  /** The channel id a post URL names, if it has the shape ChannelUrl produces. */
  function UrlChannelId(url: string): Option<int>
  {
    if |url| >= |UrlPrefix| + |UrlSuffix| && url[..|UrlPrefix|] == UrlPrefix
       && url[|url| - |UrlSuffix|..] == UrlSuffix
    then ParseDecimal(url[|UrlPrefix|..|url| - |UrlSuffix|])
    else None
  }

  /** The URL determines the id it was built from; distinct ids give distinct URLs. */
  lemma ChannelUrlRoundTrip(channelId: int)
    ensures UrlChannelId(ChannelUrl(channelId)) == Some(channelId)
  {
    var url := ChannelUrl(channelId);
    assert url[|UrlPrefix|..|url| - |UrlSuffix|] == IntToDecimal(channelId);
    IntToDecimalRoundTrip(channelId);
  }

  // ---------------------------------------------------------------------------
  // add_channel
  // ---------------------------------------------------------------------------

  /**
   * The record `add_channel` builds from the answers to its prompts: the name
   * as typed and stripped, the id (already read as an integer), the message as
   * typed, and the chance (not checked against 0..100).
   */
  function NewChannel(rawName: string, channelId: int, rawMessage: string, chance: int): (c: Channel)
    ensures c.name == Strip(rawName) && c.message == Unescape(rawMessage) && c.url == ChannelUrl(channelId)
    ensures c.channelId == channelId && c.chance == chance
    ensures UrlChannelId(c.url) == Some(channelId)
    ensures c.name == [] || (!IsSpace(c.name[0]) && !IsSpace(c.name[|c.name| - 1]))
    ensures NoEscapes(c.message)
  {
    ChannelUrlRoundTrip(channelId);
    UnescapeLeavesNoEscapes(rawMessage);
    Channel(Strip(rawName), ChannelUrl(channelId), channelId, Unescape(rawMessage), chance)
  }

  /**
   * `channels.append(new_channel)`: the list written back to the file is the
   * loaded list, unchanged, followed by exactly one new record.
   */
  function AddChannel(channels: seq<Channel>, rawName: string, channelId: int, rawMessage: string, chance: int)
    : (r: seq<Channel>)
    ensures |r| == |channels| + 1
    ensures r[..|channels|] == channels
    ensures r[|channels|].url == ChannelUrl(channelId)
    ensures r[|channels|] == NewChannel(rawName, channelId, rawMessage, chance)
  {
    channels + [NewChannel(rawName, channelId, rawMessage, chance)]
  }
}
