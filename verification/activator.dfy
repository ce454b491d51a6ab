/**
 The orchestrator: holds the user, the site settings and the invite found
 for the user, chooses a strategy, and records the message of `finish`.
 */
module Activator {
  import opened Records
  import opened Policy
  import opened Tokens
  import opened Trace
  import opened Strategies

  /** One activation request. `message` is None until `finish` has run. */
  datatype Activator = Activator(user: User, settings: SiteSettings, invite: Option<Invite>, message: Option<string>)

  /** A fresh activator, as constructed for a request. */
  function New(user: User, settings: SiteSettings, invite: Option<Invite>): (a: Activator)
    ensures a.user == user && a.settings == settings && a.invite == invite && a.message.None?
  {
    Activator(user, settings, invite, None)
  }

  /** The strategy the factory picks for this request. */
  function Chosen(a: Activator): Strategy
  {
    Select(a.user, a.settings, a.invite)
  }

  /** `success_message`: the message of the chosen strategy, computed
      without running its `activate`, hence without any effect. */
  function SuccessMessageOf(a: Activator, svc: Services): (m: string)
    ensures a.user.isNoEmail ==> m == svc.translate("login.active", map[]) + "[no email]"
    ensures !a.user.isNoEmail && !a.user.active ==>
      m == svc.translate("login.activate_email", map["email" := svc.escapeHtml(a.user.email)])
    ensures !a.user.isNoEmail && a.user.active && a.settings.mustApproveUsers && !InviteAdmits(a.invite) ==>
      m == svc.translate("login.wait_approval", map[])
    ensures !a.user.isNoEmail && a.user.active && (!a.settings.mustApproveUsers || InviteAdmits(a.invite)) ==>
      m == svc.translate("login.active", map[])
  {
    SuccessMessage(Chosen(a), a.user, svc)
  }

  /** The activator after `finish`, and the effects `finish` caused. */
  datatype Finished = Finished(activator: Activator, effects: seq<Effect>)

  /** `finish`: run the chosen strategy's `activate` and store what it returns. */
  function Finish(a: Activator, svc: Services, freshToken: string): (r: Finished)
    ensures r.activator.message == Some(SuccessMessageOf(a, svc))
    ensures r.activator == a.(user := r.activator.user, message := r.activator.message)
    ensures r.activator.user == a.user.(emailTokens := r.activator.user.emailTokens)
    ensures r.activator.user.emailTokens == a.user.emailTokens + CreatedTokens(r.effects)
    ensures Chosen(r.activator) == Chosen(a)
    ensures SuccessMessageOf(r.activator, svc) == SuccessMessageOf(a, svc)
    ensures a.user.isNoEmail ==> r.effects == []
    ensures Chosen(a) == ApprovalActivator ==> r.effects == []
    ensures Chosen(a) == LoginActivator ==>
      r.effects == [LogOn(a.user.id), Enqueue(WelcomeMessage(a.user.id, "welcome_user"))]
    ensures Chosen(a) == EmailActivator ==>
      (var ts := r.activator.user.emailTokens;
       FirstReusable(ts).Some? &&
       r.effects ==
         (if HasReusable(a.user.emailTokens) then [] else [CreateToken(NewToken(a.user.email, freshToken))]) +
         [Enqueue(CriticalUserEmail("signup", a.user.id, ts[FirstReusable(ts).value].token))] &&
       Jobs(r.effects) == [CriticalUserEmail("signup", a.user.id, ts[FirstReusable(ts).value].token)] &&
       |CreatedTokens(r.effects)| == (if HasReusable(a.user.emailTokens) then 0 else 1))
    ensures LogsOn(r.effects) <==> Chosen(a) == LoginActivator
  {
    var o := Activate(Chosen(a), a.user, svc, freshToken);
    Finished(a.(user := o.user, message := Some(o.message)), o.effects)
  }

  /** Finishing an email activation twice creates at most one token in all,
      the second run changes nothing, and both confirmation mails carry the
      same token. */
  lemma RepeatedEmailFinishCreatesOneToken(a: Activator, svc: Services, freshToken: string, freshToken': string)
    requires Chosen(a) == EmailActivator
    ensures var r1 := Finish(a, svc, freshToken);
            var r2 := Finish(r1.activator, svc, freshToken');
            CreatedTokens(r2.effects) == [] &&
            |CreatedTokens(r1.effects)| + |CreatedTokens(r2.effects)| <= 1 &&
            r2.activator.user == r1.activator.user &&
            Jobs(r2.effects) == Jobs(r1.effects)
  {
  }
}
