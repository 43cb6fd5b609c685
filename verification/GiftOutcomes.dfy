/** Who may claim a gift or be referred, and what a claim then changes, told from the brand
    before it. */
module GiftOutcomes {
  import opened Prelude
  import opened GiftClaims

  /** A claim through a link is accepted exactly for a paid gift of somebody else, by an active
      user, while the link is free and has not expired or is reserved for the user, and while
      the gift has no other recipient; a complete profile also needs a subscription or a
      provider for one. */
  lemma ClaimGoesThrough(s: Brand, v: nat, user: nat, newly: bool, now: int, providerOk: bool)
    ensures Claim(s, v, user, newly, now, providerOk).Ok? <==>
      && v < |s.vouchers| && s.vouchers[v].order in s.gifts
      && var voucher, gift := s.vouchers[v], s.gifts[s.vouchers[v].order];
      && (voucher.claimedBy == Some(user) || (voucher.claimedBy.None? && now < voucher.expires))
      && gift.paid && gift.buyer != user && user in s.users && s.users[user].active
      && (gift.recipient.None? || gift.recipient == Some(user))
      && (gift.recipient.None? && s.users[user].complete ==> voucher.order in s.subs || providerOk)
  {
    hide IsReferred;
  }

  /** A user is known to be invited, by a row or on the user's own record. */
  predicate IsInvited(s: Brand, user: nat) {
    (user in s.users && s.users[user].referredBy.Some?) || IsReferred(s, user)
  }

  /** What an accepted claim on a gift without recipient does: it reserves the link, noting at
      the first time whether the user is new; with a complete profile it also hands the gift
      over, and books an invitation by the buyer for a new member who has none. */
  lemma ClaimMoves(s: Brand, v: nat, user: nat, newly: bool, now: int, providerOk: bool)
    requires Claim(s, v, user, newly, now, providerOk).Ok? && s.gifts[s.vouchers[v].order].recipient.None?
    ensures var t, order := Claim(s, v, user, newly, now, providerOk).value, s.vouchers[v].order;
            var isNew := if s.vouchers[v].claimedBy.None? then newly else s.vouchers[v].newMember;
            var complete, buyer := s.users[user].complete, s.gifts[order].buyer;
            && t.vouchers == s.vouchers[v := s.vouchers[v].(claimedBy := Some(user), newMember := isNew)]
            && t.gifts == (if complete then s.gifts[order := s.gifts[order].(recipient := Some(user), handed := true)]
                           else s.gifts)
            && (!complete ==> t.subs == s.subs)
            && (complete ==> t.subs.Keys == s.subs.Keys + {order} && t.subs[order].owner == user)
            && (forall other :: other in s.subs && other != order ==> t.subs[other] == s.subs[other])
            && t.referrals == (if complete && isNew && !IsInvited(s, user)
                               then s.referrals + [Referral(buyer, user, DefaultOf(buyer))] else s.referrals)
  {
    var r := WithClaimant(s, v, user, newly);
    SameReferrals(r, s, user);
    if s.users[user].complete { HandOverMoves(r, v, user, providerOk); }
    hide IsReferred, HandOver;
  }

  lemma HandOverMoves(s: Brand, v: nat, user: nat, providerOk: bool)
    requires v < |s.vouchers| && s.vouchers[v].order in s.gifts && user in s.users
    requires HandOver(s, v, user, providerOk).Ok?
    ensures var t, order := HandOver(s, v, user, providerOk).value, s.vouchers[v].order;
            && t.vouchers == s.vouchers
            && t.gifts == s.gifts[order := s.gifts[order].(recipient := Some(user), handed := true)]
            && t.subs.Keys == s.subs.Keys + {order} && t.subs[order].owner == user
            && (forall other :: other in s.subs && other != order ==> t.subs[other] == s.subs[other])
            && t.referrals == (if s.vouchers[v].newMember && !IsInvited(s, user)
                               then s.referrals + [Referral(s.gifts[order].buyer, user, DefaultOf(s.gifts[order].buyer))]
                               else s.referrals)
  {
    hide IsReferred;
  }

  /** A claim by name is accepted exactly for a paid gift of somebody else that was not handed
      over, names no other recipient, and names this user where it has none. */
  lemma NameGoesThrough(s: Brand, user: nat, matched: Option<nat>)
    ensures ClaimDesignated(s, user, matched).Some? <==>
      && user in s.users && matched.Some? && matched.value in s.gifts && matched.value in s.subs
      && var gift := s.gifts[matched.value];
      && gift.paid && gift.buyer != user && !gift.handed
      && (gift.recipient == Some(user)
          || (gift.recipient.None? && gift.designated.Some? && gift.designated == s.users[user].name))
    ensures ClaimDesignated(s, user, matched).Some? ==>
      var t := ClaimDesignated(s, user, matched).value;
      && t.gifts == s.gifts[matched.value := s.gifts[matched.value].(recipient := Some(user), handed := true)]
      && t.subs == s.subs[matched.value := Sub(user, true)]
      && t.vouchers == s.vouchers && t.referrals == s.referrals && t.users == s.users
  {
  }

  /** An invitation counts exactly for a known user who was not invited before, through an
      active link of another known user. */
  lemma InvitationCounts(s: Brand, user: nat, link: Link, active: bool)
    ensures var owner := if link.DefaultOf? then Some(link.user) else link.owner;
            var counts := user in s.users && !IsInvited(s, user) && active
                          && owner.Some? && owner.value != user && owner.value in s.users;
            var t := Attribute(s, user, link, active);
            && (counts ==> t.referrals == s.referrals + [Referral(owner.value, user, link)]
                           && user in t.users && t.users[user].referredBy == owner)
            && (!counts ==> t == s)
  {
    hide IsReferred;
  }
}
