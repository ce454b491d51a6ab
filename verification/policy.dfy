/**
 The activation policy: which of the four strategies applies to a user.
 */
module Policy {
  import opened Records

  /** The four strategy classes the factory can return. */
  datatype Strategy = NoEmailActivator | EmailActivator | ApprovalActivator | LoginActivator

  /** An invite lets an active user skip approval only when it is present,
      unexpired, not destroyed and its link is still valid. */
  predicate InviteAdmits(invite: Option<Invite>)
  {
    invite.Some? && !invite.value.expired && !invite.value.destroyed && invite.value.linkValid
  }

  /** The factory's first-match-wins decision tree. */
  function Select(user: User, settings: SiteSettings, invite: Option<Invite>): (s: Strategy)
    ensures user.isNoEmail ==> s == NoEmailActivator
    ensures !user.isNoEmail && !user.active ==> s == EmailActivator
    ensures !user.isNoEmail && user.active && settings.mustApproveUsers ==>
      (s == LoginActivator <==> InviteAdmits(invite)) && (s == ApprovalActivator <==> !InviteAdmits(invite))
    ensures !user.isNoEmail && user.active && !settings.mustApproveUsers ==> s == LoginActivator
  {
    if user.isNoEmail then NoEmailActivator
    else if !user.active then EmailActivator
    else if settings.mustApproveUsers && !InviteAdmits(invite) then ApprovalActivator
    else LoginActivator
  }

  /** An order-free description of when each strategy applies: every
      condition spells out the negations of the earlier branches. */
  predicate Applies(s: Strategy, user: User, settings: SiteSettings, invite: Option<Invite>)
  {
    match s
    case NoEmailActivator => user.isNoEmail
    case EmailActivator => !user.isNoEmail && !user.active
    case ApprovalActivator => !user.isNoEmail && user.active && settings.mustApproveUsers && !InviteAdmits(invite)
    case LoginActivator => !user.isNoEmail && user.active && (!settings.mustApproveUsers || InviteAdmits(invite))
  }

  /** The decision tree picks a strategy whose condition holds, and no other
      strategy's condition holds: the policy is total and unambiguous. */
  lemma SelectIsTheApplicableStrategy(user: User, settings: SiteSettings, invite: Option<Invite>)
    ensures Applies(Select(user, settings, invite), user, settings, invite)
    ensures forall s :: Applies(s, user, settings, invite) <==> s == Select(user, settings, invite)
  {
  }
}
