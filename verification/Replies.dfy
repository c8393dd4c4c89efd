/** Replies of the remote API and the client's "not found" test on error texts. */
module Replies {
  import opened Wrappers
  import opened Texts

  /** What comes back from one HTTP exchange. */
  datatype Exchange = Answered(status: nat, body: Text) | Broken(reason: Text)

  const RESPONSE_CODE: Text := "response code '"
  const UNEXPECTED: Text := "unexpected " + RESPONSE_CODE
  const CLOSING: Text := "'" + ": "
  const PHRASE_404: Text := RESPONSE_CODE + "404" + "'"
  const PHRASE_ABSENT: Text := "does not exist"
  const REQUEST_FAILED: Text := "request failed: "

  /** The error text for a reply outside 200..299. */
  function StatusError(status: nat, body: Text): Text {
    UNEXPECTED + Decimal(status) + CLOSING + body
  }

  /** sendRequest, from the exchange onwards. */
  function SendRequest(x: Exchange): Result<Text, Text> {
    match x
    case Broken(reason) => Err(REQUEST_FAILED + reason)
    case Answered(status, body) =>
      if status < 200 || status >= 300 then Err(StatusError(status, body)) else Ok(body)
  }

  /** IsNotFound, on the text of a non-nil error. */
  predicate IsNotFound(error: Text) {
    Contains(error, PHRASE_404) || Contains(error, PHRASE_ABSENT)
  }

  predicate PhraseFree(body: Text) {
    !Contains(body, PHRASE_404) && !Contains(body, PHRASE_ABSENT)
  }

  /** An occurrence in a concatenation that starts in its second part is one of that part. */
  lemma OccursInSuffix(prefix: Text, body: Text, sub: Text, i: nat)
    requires i >= |prefix|
    ensures OccursAt(prefix + body, sub, i) <==> OccursAt(body, sub, i - |prefix|)
  {
    if i + |sub| <= |prefix + body| {
      assert (prefix + body)[i..i + |sub|] == body[i - |prefix|..i - |prefix| + |sub|];
    }
  }

  /** Where the fixed words of the error text could begin a phrase. */
  lemma UnexpectedLetters(i: nat)
    requires i < |UNEXPECTED|
    ensures UNEXPECTED[i] == 'r' ==> i == 11
    ensures UNEXPECTED[i] == 'd' ==> i == 9 || i == 22
  {
  }

  /** The prefix letter by letter: fixed words, digits, closing quote. */
  lemma PrefixLetter(status: nat, body: Text, i: nat)
    requires i < |UNEXPECTED + Decimal(status) + CLOSING|
    ensures var c := StatusError(status, body)[i];
      if i < 26 then c == UNEXPECTED[i] else IsDigit(c) || c in CLOSING
  {
    var d := Decimal(status);
    if 26 <= i < 26 + |d| {
      assert StatusError(status, body)[i] == d[i - 26];
    }
  }

  lemma OccurrenceLetter(s: Text, sub: Text, i: nat, j: nat)
    requires j < |sub|
    ensures OccursAt(s, sub, i) ==> i + j < |s| && s[i + j] == sub[j]
  {
    if OccursAt(s, sub, i) {
      assert s[i + j] == s[i..i + |sub|][j];
    }
  }

  /** "does not exist" cannot start inside the formatted prefix. */
  lemma AbsentNoStraddle(status: nat, body: Text, i: nat)
    requires i < |UNEXPECTED + Decimal(status) + CLOSING|
    ensures !OccursAt(StatusError(status, body), PHRASE_ABSENT, i)
  {
    OccurrenceLetter(StatusError(status, body), PHRASE_ABSENT, i, 0);
    OccurrenceLetter(StatusError(status, body), PHRASE_ABSENT, i, 1);
    PrefixLetter(status, body, i);
    if i < 26 {
      UnexpectedLetters(i);
    }
    if i == 9 || i == 22 {
      PrefixLetter(status, body, i + 1);
    }
  }

  /** "response code '404'" can start there at its own place only, and only when the status prints as 404. */
  lemma StatusNoStraddle(status: nat, body: Text, i: nat)
    requires i < |UNEXPECTED + Decimal(status) + CLOSING|
    ensures OccursAt(StatusError(status, body), PHRASE_404, i) ==> i == 11 && Decimal(status) == "404"
  {
    OccurrenceLetter(StatusError(status, body), PHRASE_404, i, 0);
    PrefixLetter(status, body, i);
    if i < 26 {
      UnexpectedLetters(i);
    }
    if i == 11 && OccursAt(StatusError(status, body), PHRASE_404, i) {
      FourZeroFour(status, body);
    }
  }

  lemma DigitsThenQuote(status: nat, body: Text)
    ensures var e, d := StatusError(status, body), Decimal(status);
      |e| > 26 + |d| && e[26 + |d|] == '\'' && forall j :: 0 <= j < |d| ==> e[26 + j] == d[j] && IsDigit(e[26 + j])
  {
    assert StatusError(status, body)[26 + |Decimal(status)|] == CLOSING[0];
  }

  lemma FourZeroFour(status: nat, body: Text)
    requires OccursAt(StatusError(status, body), PHRASE_404, 11)
    ensures Decimal(status) == "404"
  {
    var e := StatusError(status, body);
    DigitsThenQuote(status, body);
    OccurrenceLetter(e, PHRASE_404, 11, 15);
    OccurrenceLetter(e, PHRASE_404, 11, 16);
    OccurrenceLetter(e, PHRASE_404, 11, 17);
    OccurrenceLetter(e, PHRASE_404, 11, 18);
  }

  /** A phrase found in the error text is found in the body, or is the 404 the prefix spells. */
  lemma ContainsSplits(status: nat, body: Text, phrase: Text)
    requires phrase == PHRASE_404 || phrase == PHRASE_ABSENT
    ensures Contains(StatusError(status, body), phrase)
        ==> Contains(body, phrase) || (phrase == PHRASE_404 && Decimal(status) == "404")
    ensures Contains(body, phrase) ==> Contains(StatusError(status, body), phrase)
  {
    var prefix := UNEXPECTED + Decimal(status) + CLOSING;
    if Contains(StatusError(status, body), phrase) {
      var i: nat :| OccursAt(StatusError(status, body), phrase, i);
      if i >= |prefix| {
        OccursInSuffix(prefix, body, phrase, i);
      } else if phrase == PHRASE_404 {
        StatusNoStraddle(status, body, i);
      } else {
        AbsentNoStraddle(status, body, i);
      }
    }
    if Contains(body, phrase) {
      var i: nat :| OccursAt(body, phrase, i);
      OccursInSuffix(prefix, body, phrase, i + |prefix|);
    }
  }

  lemma PrintedAs404(status: nat)
    ensures Decimal(status) == "404" <==> status == 404
  {
    assert Decimal(404) == "404" by {
      assert Decimal(40) == "40";
    }
    ParseDecimal(status);
    ParseDecimal(404);
  }

  lemma OccursBetween(before: Text, sub: Text, after: Text)
    ensures Contains(before + sub + after, sub)
  {
    assert OccursAt(before + sub + after, sub, |before|);
  }

  lemma Reassociate(a: Text, b: Text, c: Text, d: Text, e: Text, body: Text)
    ensures (a + b) + c + (d + e) + body == a + (b + c + d) + (e + body)
  {
  }

  lemma Status404IsNotFound(body: Text)
    ensures Contains(StatusError(404, body), PHRASE_404)
  {
    PrintedAs404(404);
    Reassociate("unexpected ", RESPONSE_CODE, "404", "'", ": ", body);
    OccursBetween("unexpected ", PHRASE_404, ": " + body);
  }

  /** A reply outside 200..299 reads as "not found" exactly when its status is 404 or its own body
      contains one of the two phrases. */
  lemma NotFoundExactly(status: nat, body: Text)
    ensures IsNotFound(StatusError(status, body)) <==> status == 404 || !PhraseFree(body)
  {
    ContainsSplits(status, body, PHRASE_404);
    ContainsSplits(status, body, PHRASE_ABSENT);
    PrintedAs404(status);
    Status404IsNotFound(body);
  }

  /** What GetRuleGroup makes of an exchange: a document, "absent", or an error. */
  datatype Reading = Document(body: Text) | Absent | Failed(error: Text)

  function ReadReply(x: Exchange): Reading {
    match SendRequest(x)
    case Ok(body) => Document(body)
    case Err(error) => if IsNotFound(error) then Absent else Failed(error)
  }

  /** What DeleteRuleGroup makes of an exchange: whether it reports success. */
  predicate DeleteSucceeds(x: Exchange) {
    match SendRequest(x)
    case Ok(_) => true
    case Err(error) => IsNotFound(error)
  }

  /** With phrase-free bodies, Get reports absence exactly on 404, and Delete succeeds exactly on 2xx and 404. */
  lemma AnsweredExactly(status: nat, body: Text)
    requires PhraseFree(body)
    ensures ReadReply(Answered(status, body)).Absent? <==> status == 404
    ensures DeleteSucceeds(Answered(status, body)) <==> 200 <= status < 300 || status == 404
  {
    NotFoundExactly(status, body);
  }

  // --------------------------------------------------------------------------------------------------
  // In other words

  /** One of the two phrases is in a text. Used to state what is proved, not by the model. */
  ghost predicate HasPhrase(t: Text) {
    Contains(t, "response code '404'") || Contains(t, "does not exist")
  }

  lemma PhrasesExactly(t: Text)
    ensures IsNotFound(t) <==> HasPhrase(t)
    ensures PhraseFree(t) <==> !HasPhrase(t)
  {
    assert PHRASE_404 == "response code '404'";
  }

  /** What sendRequest returns, by status. */
  lemma ReplyExactly(status: nat, body: Text, reason: Text)
    ensures 200 <= status <= 299 ==> SendRequest(Answered(status, body)) == Ok(body)
    ensures status < 200 || 299 < status ==>
      SendRequest(Answered(status, body)) == Err("unexpected response code '" + Decimal(status) + "': " + body)
    ensures SendRequest(Broken(reason)) == Err("request failed: " + reason)
  {
    assert UNEXPECTED == "unexpected response code '" && CLOSING == "': ";
  }

  /** No phrase starts within "request failed: ". */
  lemma TransportLetters(reason: Text, phrase: Text, i: nat)
    requires phrase == PHRASE_404 || phrase == PHRASE_ABSENT
    requires i < |REQUEST_FAILED|
    ensures !OccursAt(REQUEST_FAILED + reason, phrase, i)
  {
    var e: Text := REQUEST_FAILED + reason;
    OccurrenceLetter(e, phrase, i, 0);
    OccurrenceLetter(e, phrase, i, 1);
    OccurrenceLetter(e, phrase, i, 2);
    assert e[i] == REQUEST_FAILED[i];
    assert PHRASE_404[0] == 'r' && PHRASE_404[2] == 's' && PHRASE_ABSENT[0] == 'd' && PHRASE_ABSENT[1] == 'o';
    assert REQUEST_FAILED[i] == 'r' ==> i == 0;
    assert REQUEST_FAILED[i] == 'd' ==> i == 13;
    assert e[2] == 'q' && e[14] == ':';
  }

  lemma TransportSplits(reason: Text, phrase: Text)
    requires phrase == PHRASE_404 || phrase == PHRASE_ABSENT
    ensures Contains(REQUEST_FAILED + reason, phrase) <==> Contains(reason, phrase)
  {
    if Contains(REQUEST_FAILED + reason, phrase) {
      var i: nat :| OccursAt(REQUEST_FAILED + reason, phrase, i);
      if i < |REQUEST_FAILED| {
        TransportLetters(reason, phrase, i);
      } else {
        OccursInSuffix(REQUEST_FAILED, reason, phrase, i);
      }
    }
    if Contains(reason, phrase) {
      var i: nat :| OccursAt(reason, phrase, i);
      OccursInSuffix(REQUEST_FAILED, reason, phrase, i + |REQUEST_FAILED|);
    }
  }

  /** A failed transport reads as "not found" exactly when its own text holds one of the phrases. */
  lemma TransportExactly(reason: Text)
    ensures IsNotFound(REQUEST_FAILED + reason) <==> HasPhrase(reason)
  {
    TransportSplits(reason, PHRASE_404);
    TransportSplits(reason, PHRASE_ABSENT);
    PhrasesExactly(reason);
  }
}
