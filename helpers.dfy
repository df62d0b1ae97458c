/** The `Authorization: Bearer <token>` header parser, over Go's
    `strings.Split` with a one-character separator. */
module Helpers {

  const MissingHeaderMessage := "authorization header is missing"
  const BadFormatMessage := "authorization header format must be bearer <token>"

  /** Joins at least one part with `sep` between neighbours. */
  function Join(parts: seq<string>, sep: char): string
    requires |parts| >= 1
  {
    if |parts| == 1 then parts[0] else parts[0] + [sep] + Join(parts[1..], sep)
  }

  /** The number of occurrences of `c` in `s`. */
  function Count(s: string, c: char): nat
  {
    if s == [] then 0 else (if s[0] == c then 1 else 0) + Count(s[1..], c)
  }

  /** `strings.Split(s, sep)` for a one-character separator: the maximal
      pieces between separators, one more piece than there are separators
      (so "" splits into [""]), and joining them back gives `s`. */
  function Split(s: string, sep: char): (parts: seq<string>)
    ensures |parts| == Count(s, sep) + 1
    ensures forall i :: 0 <= i < |parts| ==> sep !in parts[i]
    ensures Join(parts, sep) == s
  {
    if s == [] then [""]
    else
      var rest := Split(s[1..], sep);
      if s[0] == sep then
        assert Join([""] + rest, sep) == [sep] + Join(rest, sep) by {
          assert ([""] + rest)[1..] == rest;
        }
        [""] + rest
      else
        var parts := [[s[0]] + rest[0]] + rest[1..];
        JoinConsFirst(s[0], rest, sep);
        parts
  }

  /** Prefixing a character to the first part prefixes it to the join. */
  lemma JoinConsFirst(c: char, parts: seq<string>, sep: char)
    requires |parts| >= 1
    ensures Join([[c] + parts[0]] + parts[1..], sep) == [c] + Join(parts, sep)
  {
  }

  /** Splitting undoes joining parts that contain no separator. */
  lemma {:induction false} SplitJoin(parts: seq<string>, sep: char)
    requires |parts| >= 1
    requires forall i :: 0 <= i < |parts| ==> sep !in parts[i]
    ensures Split(Join(parts, sep), sep) == parts
    decreases |parts|, |parts[0]|
  {
    if |parts| == 1 {
      SplitNoSeparator(parts[0], sep);
    } else if parts[0] == [] {
      var rest := parts[1..];
      SplitJoin(rest, sep);
      assert Join(parts, sep) == [sep] + Join(rest, sep);
      SplitAfterSeparator(Join(rest, sep), sep);
      assert parts == [""] + rest;
    } else {
      var c := parts[0][0];
      var shorter := [parts[0][1..]] + parts[1..];
      ShorterSeparatorFree(parts, sep);
      SplitJoin(shorter, sep);
      JoinConsFirst(c, shorter, sep);
      assert [[c] + shorter[0]] + shorter[1..] == parts by {
        assert [c] + parts[0][1..] == parts[0];
      }
      assert c != sep by { assert parts[0][0] in parts[0]; }
      SplitAfterChar(c, Join(shorter, sep), sep);
    }
  }

  /** Dropping the first character of the first part keeps every part free
      of the separator. */
  lemma ShorterSeparatorFree(parts: seq<string>, sep: char)
    requires |parts| >= 1 && parts[0] != []
    requires forall i :: 0 <= i < |parts| ==> sep !in parts[i]
    ensures var shorter := [parts[0][1..]] + parts[1..];
      |shorter| == |parts| && forall i :: 0 <= i < |shorter| ==> sep !in shorter[i]
  {
  }

  /** A leading separator starts with an empty piece. */
  lemma SplitAfterSeparator(s: string, sep: char)
    ensures Split([sep] + s, sep) == [""] + Split(s, sep)
  {
  }

  /** A leading ordinary character joins the first piece. */
  lemma SplitAfterChar(c: char, s: string, sep: char)
    requires c != sep
    ensures Split([c] + s, sep) == [[c] + Split(s, sep)[0]] + Split(s, sep)[1..]
  {
  }

  /** A string without the separator splits into itself alone. */
  lemma SplitNoSeparator(s: string, sep: char)
    requires sep !in s
    ensures Split(s, sep) == [s]
  {
  }

  /** The outcome of `ExtractToken`: the token, or the error's text. */
  datatype TokenResult = Token(value: string) | TokenError(message: string)

  /** `ExtractToken` on the Authorization header's value ("" when absent).
      A token is returned only from a header that is exactly "Bearer", one
      space and that token. */
  function ExtractToken(authHeader: string): (r: TokenResult)
    ensures r == TokenError(MissingHeaderMessage) <==> authHeader == ""
    ensures r.TokenError? ==> r.message in {MissingHeaderMessage, BadFormatMessage}
    ensures r.Token? ==> ' ' !in r.value && "Bearer " + r.value == authHeader
  {
    if authHeader == "" then TokenError(MissingHeaderMessage)
    else
      var parts := Split(authHeader, ' ');
      if |parts| != 2 || parts[0] != "Bearer" then TokenError(BadFormatMessage)
      else
        assert Join(parts, ' ') == parts[0] + [' '] + parts[1] by {
          assert parts[1..] == [parts[1]];
        }
        Token(parts[1])
  }

  /** Round trip: any token without a space, the empty one included, comes
      back out of "Bearer " followed by it. */
  lemma ExtractTokenRoundTrip(t: string)
    requires ' ' !in t
    ensures ExtractToken("Bearer " + t) == Token(t)
  {
    var parts := ["Bearer", t];
    assert Join(parts, ' ') == "Bearer " + t by {
      assert parts[1..] == [t];
    }
    SplitJoin(parts, ' ');
  }

  /** The header is accepted exactly when it is "Bearer " followed by a
      space-free token. */
  lemma ExtractTokenAccepts(authHeader: string)
    ensures ExtractToken(authHeader).Token? <==>
      |authHeader| >= 7 && authHeader[..7] == "Bearer " && ' ' !in authHeader[7..]
  {
    if |authHeader| >= 7 && authHeader[..7] == "Bearer " && ' ' !in authHeader[7..] {
      assert authHeader == "Bearer " + authHeader[7..];
      ExtractTokenRoundTrip(authHeader[7..]);
    }
  }

  /** A non-empty header with no space, or with two or more, is refused
      with the format error, since it does not split into two parts. */
  lemma WrongSpaceCountRejected(authHeader: string)
    requires authHeader != "" && Count(authHeader, ' ') != 1
    ensures ExtractToken(authHeader) == TokenError(BadFormatMessage)
  {
  }

  /** The scheme must be "Bearer" exactly, case included. */
  lemma SchemeIsCaseSensitive()
    ensures ExtractToken("bearer x") == TokenError(BadFormatMessage)
    ensures ExtractToken("Token x") == TokenError(BadFormatMessage)
    ensures ExtractToken("BEARER x") == TokenError(BadFormatMessage)
  {
  }
}
