/**
 The four activation strategies. Each `activate` returns its success
 message, the effects it caused, and the user as it is afterwards.
 */
module Strategies {
  import opened Records
  import opened Policy
  import opened Tokens
  import opened Trace

  datatype Outcome = Outcome(message: string, effects: seq<Effect>, user: User)

  const WaitApprovalKey := "login.wait_approval"
  const ActivateEmailKey := "login.activate_email"
  const ActiveKey := "login.active"
  const NoEmailSuffix := "[no email]"
  const WelcomeUser := "welcome_user"
  const Signup := "signup"

  /** What each strategy's `success_message` returns. */
  function SuccessMessage(s: Strategy, user: User, svc: Services): (m: string)
    ensures s == ApprovalActivator ==> m == svc.translate("login.wait_approval", map[])
    ensures s == EmailActivator ==> m == svc.translate("login.activate_email", map["email" := svc.escapeHtml(user.email)])
    ensures s == LoginActivator ==> m == svc.translate("login.active", map[])
    ensures s == NoEmailActivator ==> m == svc.translate("login.active", map[]) + "[no email]"
  {
    match s
    case ApprovalActivator => svc.translate(WaitApprovalKey, map[])
    case EmailActivator => svc.translate(ActivateEmailKey, map["email" := svc.escapeHtml(user.email)])
    case LoginActivator => svc.translate(ActiveKey, map[])
    case NoEmailActivator => svc.translate(ActiveKey, map[]) + NoEmailSuffix
  }

  /** Approval: nothing happens but the wait-approval message. */
  function ActivateApproval(user: User, svc: Services): (o: Outcome)
    ensures o.effects == [] && o.user == user
    ensures o.message == svc.translate("login.wait_approval", map[])
    ensures o.message == SuccessMessage(ApprovalActivator, user, svc)
  {
    Outcome(SuccessMessage(ApprovalActivator, user, svc), [], user)
  }

  /** Email: pick or create a token, enqueue one signup mail carrying it. */
  function ActivateEmail(user: User, svc: Services, freshToken: string): (o: Outcome)
    ensures o.message == svc.translate("login.activate_email", map["email" := svc.escapeHtml(user.email)])
    ensures o.message == SuccessMessage(EmailActivator, user, svc)
    ensures o.user == user.(emailTokens := o.user.emailTokens)
    ensures HasReusable(user.emailTokens) ==> o.user == user && CreatedTokens(o.effects) == []
    ensures !HasReusable(user.emailTokens) ==>
      (o.user.emailTokens == user.emailTokens + [NewToken(user.email, freshToken)] &&
       CreatedTokens(o.effects) == [NewToken(user.email, freshToken)])
    ensures FirstReusable(o.user.emailTokens).Some?
    ensures o.effects ==
      (if HasReusable(user.emailTokens) then [] else [CreateToken(NewToken(user.email, freshToken))]) +
      [Enqueue(CriticalUserEmail("signup", user.id, o.user.emailTokens[FirstReusable(o.user.emailTokens).value].token))]
    ensures Jobs(o.effects) ==
      [CriticalUserEmail("signup", user.id, o.user.emailTokens[FirstReusable(o.user.emailTokens).value].token)]
    ensures !LogsOn(o.effects)
  {
    var c := ReuseOrCreate(user.emailTokens, user.email, freshToken);
    ReuseOrCreateIsStable(user.emailTokens, user.email, freshToken, freshToken);
    var send := Enqueue(CriticalUserEmail(Signup, user.id, c.token.token));
    var effects := if c.created then [CreateToken(c.token), send] else [send];
    assert Jobs(effects) == [send.job] by {
      if c.created {
        assert effects[1..] == [send];
        assert Jobs([send]) == [send.job];
      }
    }
    assert CreatedTokens(effects) == (if c.created then [c.token] else []) by {
      if c.created {
        assert effects[1..] == [send];
        assert CreatedTokens([send]) == [];
      }
    }
    Outcome(SuccessMessage(EmailActivator, user, svc), effects, user.(emailTokens := c.tokens))
  }

  /** Login: bind the session, then enqueue the welcome message. */
  function ActivateLogin(user: User, svc: Services): (o: Outcome)
    ensures o.effects == [LogOn(user.id), Enqueue(WelcomeMessage(user.id, "welcome_user"))]
    ensures o.user == user
    ensures o.message == svc.translate("login.active", map[])
    ensures o.message == SuccessMessage(LoginActivator, user, svc)
  {
    Outcome(SuccessMessage(LoginActivator, user, svc), [LogOn(user.id), Enqueue(WelcomeMessage(user.id, WelcomeUser))], user)
  }

  /** No-email: returns the message and nothing else; it does not log the user on. */
  function ActivateNoEmail(user: User, svc: Services): (o: Outcome)
    ensures o.effects == [] && o.user == user
    ensures o.message == svc.translate("login.active", map[]) + "[no email]"
    ensures o.message == SuccessMessage(NoEmailActivator, user, svc)
  {
    Outcome(SuccessMessage(NoEmailActivator, user, svc), [], user)
  }

  /** Runs the `activate` of the given strategy. */
  function Activate(s: Strategy, user: User, svc: Services, freshToken: string): (o: Outcome)
    ensures o.message == SuccessMessage(s, user, svc)
    ensures o.user == user.(emailTokens := o.user.emailTokens)
    ensures o.user.emailTokens == user.emailTokens + CreatedTokens(o.effects)
    ensures |CreatedTokens(o.effects)| <= 1
    ensures s != EmailActivator ==> o.user == user
    ensures LogsOn(o.effects) <==> s == LoginActivator
    ensures |Jobs(o.effects)| == (if s == EmailActivator || s == LoginActivator then 1 else 0)
    ensures s == ApprovalActivator || s == NoEmailActivator ==> o.effects == []
  {
    match s
    case ApprovalActivator => ActivateApproval(user, svc)
    case EmailActivator => ActivateEmail(user, svc, freshToken)
    case LoginActivator =>
      var o := ActivateLogin(user, svc);
      assert o.effects[0].LogOn?;
      assert o.effects[1..] == [Enqueue(WelcomeMessage(user.id, WelcomeUser))];
      o
    case NoEmailActivator => ActivateNoEmail(user, svc)
  }
}
