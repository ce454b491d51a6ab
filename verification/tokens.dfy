/**
 The email-token step of the email strategy: reuse the first unconfirmed,
 unexpired token, or create one.
 */
module Tokens {
  import opened Records

  /** A token the `unconfirmed.active` scopes would return. */
  predicate Reusable(t: EmailToken)
  {
    !t.confirmed && !t.expired
  }

  /** True when some token in the list can be reused. */
  predicate HasReusable(ts: seq<EmailToken>)
  {
    exists j :: 0 <= j < |ts| && Reusable(ts[j])
  }

  /** The position of the first reusable token, or None when there is none. */
  function FirstReusable(ts: seq<EmailToken>): (r: Option<nat>)
    ensures r.Some? ==> r.value < |ts| && Reusable(ts[r.value])
    ensures r.Some? ==> forall j :: 0 <= j < r.value ==> !Reusable(ts[j])
    ensures r.None? <==> !HasReusable(ts)
  {
    if |ts| == 0 then None
    else if Reusable(ts[0]) then Some(0)
    else match FirstReusable(ts[1..])
      case None => None
      case Some(i) => Some(i + 1)
  }

  /** The token the email strategy sends, the token list after the step, and
      whether a token was created. */
  datatype TokenChoice = TokenChoice(token: EmailToken, tokens: seq<EmailToken>, created: bool)

  /** The token a newly created row carries: addressed to the user's email,
      neither confirmed nor expired, with a value the store generates. */
  function NewToken(email: string, freshToken: string): EmailToken
  {
    EmailToken(freshToken, email, false, false)
  }

  /** Reuse the first reusable token; only when there is none, append a new one. */
  function ReuseOrCreate(ts: seq<EmailToken>, email: string, freshToken: string): (c: TokenChoice)
    ensures c.created <==> !HasReusable(ts)
    ensures !c.created ==> c.tokens == ts
    ensures !c.created ==>
      (exists i :: 0 <= i < |ts| && ts[i] == c.token && Reusable(ts[i]) && forall j :: 0 <= j < i ==> !Reusable(ts[j]))
    ensures c.created ==>
      (c.tokens == ts + [c.token] && c.token.email == email && c.token.token == freshToken && Reusable(c.token))
  {
    match FirstReusable(ts)
    case Some(i) => TokenChoice(ts[i], ts, false)
    case None => TokenChoice(NewToken(email, freshToken), ts + [NewToken(email, freshToken)], true)
  }

  /** After the step, the chosen token is the one the step would reuse next
      time: a second run creates nothing and picks the same token. */
  lemma ReuseOrCreateIsStable(ts: seq<EmailToken>, email: string, freshToken: string, freshToken': string)
    ensures var c := ReuseOrCreate(ts, email, freshToken);
            ReuseOrCreate(c.tokens, email, freshToken') == TokenChoice(c.token, c.tokens, false)
  {
    var c := ReuseOrCreate(ts, email, freshToken);
    if c.created {
      assert c.tokens[|ts|] == c.token;
      assert HasReusable(c.tokens);
      var k := FirstReusable(c.tokens).value;
      assert forall j :: 0 <= j < |ts| ==> c.tokens[j] == ts[j];
      assert k == |ts|;
    } else {
      var i :| 0 <= i < |ts| && ts[i] == c.token && Reusable(ts[i]) && forall j :: 0 <= j < i ==> !Reusable(ts[j]);
      var k := FirstReusable(ts).value;
      assert k == i;
    }
  }
}
