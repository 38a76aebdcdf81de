/**
 * The bearer-token middleware of the validated API (`AuthMiddleware` in
 * jour_03/main.go): a pure classification of the `Authorization` header.
 * Every verdict other than `Granted` answers 401 and aborts the chain;
 * `Granted` hands the request on to the next handler.
 */
module AuthGate {
  import opened Strings

  const Scheme: string := "Bearer"
  const Token: string := "secret-token-123"

  datatype Verdict =
    | Missing     // no header: "Token d'authentification requis"
    | BadFormat   // not "<scheme> <token>": "Format de token invalide"
    | BadToken    // well-formed, wrong token: "Token invalide"
    | Granted     // the chain continues

  const StatusUnauthorized: int := 401

  /** The checks in the order the middleware makes them. */
  function Authorize(header: string): Verdict {
    if header == "" then Missing
    else
      var parts := Split(header, ' ');
      if |parts| != 2 || parts[0] != Scheme then BadFormat
      else if parts[1] != Token then BadToken
      else Granted
  }

  /** "Bearer " followed by a piece without spaces: what passes the format check. */
  predicate BearerShaped(header: string) {
    |header| >= 7 && header[..7] == "Bearer " && ' ' !in header[7..]
  }

  lemma BearerShapedSplit(header: string)
    requires BearerShaped(header)
    ensures Split(header, ' ') == [Scheme, header[7..]]
  {
    var parts := [Scheme, header[7..]];
    assert parts[1..] == [header[7..]];
    assert Join(parts, ' ') == header;
    SplitJoin(parts, ' ');
  }

  lemma TwoPiecesShaped(header: string)
    requires |Split(header, ' ')| == 2 && Split(header, ' ')[0] == Scheme
    ensures BearerShaped(header) && header[7..] == Split(header, ' ')[1]
  {
    var parts := Split(header, ' ');
    assert Join(parts[1..], ' ') == parts[1];
    assert Join(parts, ' ') == parts[0] + [' '] + Join(parts[1..], ' ');
    assert header == Scheme + [' '] + parts[1];
  }

  /**
   * The classification stated without `Split`: each verdict in terms of the
   * header's shape alone, so the four cases are disjoint and exhaustive.
   */
  lemma Classification(header: string)
    ensures Authorize(header) == Missing <==> header == ""
    ensures Authorize(header) == BadFormat <==> header != "" && !BearerShaped(header)
    ensures Authorize(header) == BadToken <==> BearerShaped(header) && header[7..] != Token
    ensures Authorize(header) == Granted <==> BearerShaped(header) && header[7..] == Token
  {
    var parts := Split(header, ' ');
    if |parts| == 2 && parts[0] == Scheme {
      TwoPiecesShaped(header);
    }
    if BearerShaped(header) {
      BearerShapedSplit(header);
    }
  }

  /** The one header value the gate accepts. */
  const Accepted: string := "Bearer secret-token-123"

  lemma AcceptedShape()
    ensures BearerShaped(Accepted) && Accepted[7..] == Token
  {
    assert Accepted[..7] == "Bearer ";
    assert Accepted[7..] == Token;
  }

  /** The gate lets a request through exactly when the header is the one accepted value. */
  lemma GrantedIff(header: string)
    ensures Authorize(header) == Granted <==> header == Accepted
  {
    Classification(header);
    AcceptedShape();
    if BearerShaped(header) && header[7..] == Token {
      calc {
        header;
        header[..7] + header[7..];
        Accepted[..7] + Accepted[7..];
        Accepted;
      }
    }
  }

  /** A bare scheme followed by its space has the right shape and an empty (wrong) token. */
  lemma BareSchemeIsBadToken()
    ensures Authorize("Bearer ") == BadToken
  {
    Classification("Bearer ");
    assert "Bearer "[..7] == "Bearer " && "Bearer "[7..] == "";
  }

  /** Two spaces give three pieces, so the format check fails. */
  lemma DoubleSpaceIsBadFormat()
    ensures Split("Bearer  x", ' ') == ["Bearer", "", "x"]
    ensures Authorize("Bearer  x") == BadFormat
  {
    assert "Bearer  x" == "Bearer" + [' '] + ("" + [' '] + "x");
    SplitAfterPiece("Bearer", ' ', "" + [' '] + "x");
    SplitAfterPiece("", ' ', "x");
    SplitWithoutSeparator("x", ' ');
  }

  /** Any single word after the scheme other than the token is a bad token. */
  lemma WrongTokenIsBadToken(t: string)
    requires ' ' !in t && t != Token
    ensures Authorize("Bearer " + t) == BadToken
  {
    assert "Bearer " + t == "Bearer" + [' '] + t;
    SplitAfterPiece("Bearer", ' ', t);
    SplitWithoutSeparator(t, ' ');
  }

  /** The scheme is compared case-sensitively: `bearer` fails whatever follows it. */
  lemma LowerCaseSchemeIsBadFormat(t: string)
    ensures Authorize("bearer " + t) == BadFormat
  {
    assert "bearer " + t == "bearer" + [' '] + t;
    SplitAfterPiece("bearer", ' ', t);
    assert "bearer" != Scheme by { assert "bearer"[0] != Scheme[0]; }
  }

  /** A trailing space adds an empty third piece. */
  lemma TrailingSpaceIsBadFormat()
    ensures Split("Bearer secret-token-123 ", ' ') == ["Bearer", Token, ""]
    ensures Authorize("Bearer secret-token-123 ") == BadFormat
  {
    TrailingSpaceSplit("Bearer secret-token-123 ");
  }

  /** `h` is a parameter bound to the header so that the literal is not unfolded by the solver. */
  lemma TrailingSpaceSplit(h: string)
    requires h == "Bearer" + [' '] + (Token + [' '] + "")
    ensures Split(h, ' ') == ["Bearer", Token, ""]
  {
    SplitWithoutSeparator("", ' ');
    SplitAfterPiece(Token, ' ', "");
    SplitAfterPiece("Bearer", ' ', Token + [' '] + "");
  }
}
