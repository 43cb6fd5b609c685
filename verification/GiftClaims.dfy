/** Paid gifts and who receives them: a link that is claimed once and handed over when the
    recipient's profile is complete, a recipient whose name is noted on the order, and the
    referral that a new member brings. */
module GiftClaims {
  import opened Prelude

  datatype User = User(active: bool, complete: bool, referredBy: Option<nat>, name: Option<nat>)

  /** `handed` says that the recipient's claim has a time stamp; `designated` is the account
      name of the recipient that an administrator noted on the order. */
  datatype Gift = Gift(buyer: nat, paid: bool, recipient: Option<nat>, handed: bool, designated: Option<nat>)

  datatype Voucher = Voucher(order: nat, claimedBy: Option<nat>, newMember: bool, expires: int)

  datatype Sub = Sub(owner: nat, isGift: bool)

  datatype Link = DefaultOf(user: nat) | Campaign(id: nat, owner: Option<nat>)

  datatype Referral = Referral(referrer: nat, referee: nat, link: Link)

  /** One brand. Subscriptions are listed by the order they belong to. */
  datatype Brand = Brand(users: map<nat, User>, gifts: map<nat, Gift>, vouchers: seq<Voucher>, subs: map<nat, Sub>,
                         referrals: seq<Referral>, counts: map<nat, int>, conversions: map<Link, int>)

  // ----- referrals -----

  function CountOf(m: map<nat, int>, user: nat): int {
    if user in m then m[user] else 0
  }

  function ConversionsOf(m: map<Link, int>, link: Link): int {
    if link in m then m[link] else 0
  }

  predicate IsReferred(s: Brand, user: nat) {
    exists i :: 0 <= i < |s.referrals| && s.referrals[i].referee == user
  }

  /** A new referral row with all that is kept in step with it. */
  function WithReferral(s: Brand, referrer: nat, referee: nat, link: Link): Brand
    requires referee in s.users
  {
    s.(referrals := s.referrals + [Referral(referrer, referee, link)],
       users := s.users[referee := s.users[referee].(referredBy := Some(referrer))],
       counts := s.counts[referrer := CountOf(s.counts, referrer) + 1],
       conversions := s.conversions[link := ConversionsOf(s.conversions, link) + 1])
  }

  /** The first valid invitation of a user counts, no later one does. */
  function Attribute(s: Brand, user: nat, link: Link, active: bool): Brand {
    if user !in s.users || s.users[user].referredBy.Some? || !active then s else
    var owner := if link.DefaultOf? then Some(link.user) else link.owner;
    if owner.None? || owner.value == user || owner.value !in s.users || IsReferred(s, user) then s
    else WithReferral(s, owner.value, user, link)
  }

  // ----- claims -----

  datatype ClaimError = NoSuchLink | AlreadyUsed | NotPaid | OwnGift | NoSuchUser | AlreadyReceived | NoProvider

  function WithClaimant(s: Brand, v: nat, user: nat, newly: bool): Brand
    requires v < |s.vouchers|
  {
    if s.vouchers[v].claimedBy.Some? then s
    else s.(vouchers := s.vouchers[v := s.vouchers[v].(claimedBy := Some(user), newMember := newly)])
  }

  /** The hand-over itself: recipient, referral of a new member, and ownership. */
  function HandOver(s: Brand, v: nat, user: nat, providerOk: bool): Result<Brand, ClaimError>
    requires v < |s.vouchers| && s.vouchers[v].order in s.gifts && user in s.users
  {
    var order := s.vouchers[v].order;
    var gift := s.gifts[order];
    var given := s.(gifts := s.gifts[order := gift.(recipient := Some(user), handed := true)]);
    var counted := if s.vouchers[v].newMember && s.users[user].referredBy.None? && !IsReferred(s, user)
                   then WithReferral(given, gift.buyer, user, DefaultOf(gift.buyer)) else given;
    if order in s.subs then Ok(counted.(subs := s.subs[order := s.subs[order].(owner := user)]))
    else if !providerOk then Err(NoProvider)
    else Ok(counted.(subs := s.subs[order := Sub(user, true)]))
  }

  /** Opening a gift link. The voucher is reserved for the first valid claimant; the gift is
      handed over once the claimant's profile is complete. */
  function Claim(s: Brand, v: nat, user: nat, newly: bool, now: int, providerOk: bool): Result<Brand, ClaimError> {
    if v >= |s.vouchers| || s.vouchers[v].order !in s.gifts then Err(NoSuchLink) else
    var voucher, gift := s.vouchers[v], s.gifts[s.vouchers[v].order];
    if voucher.expires <= now && voucher.claimedBy.None? then Err(NoSuchLink)
    else if voucher.claimedBy.Some? && voucher.claimedBy.value != user then Err(AlreadyUsed)
    else if !gift.paid then Err(NotPaid)
    else if gift.buyer == user then Err(OwnGift)
    else if user !in s.users || !s.users[user].active then Err(NoSuchUser)
    else if gift.recipient.Some? then
      if gift.recipient.value == user then Ok(s) else Err(AlreadyReceived)
    else
      var reserved := WithClaimant(s, v, user, newly);
      if !s.users[user].complete then Ok(reserved) else HandOver(reserved, v, user, providerOk)
  }

  /** Vouchers that wait for their claimant's profile. */
  predicate IsHeld(s: Brand, v: nat, user: nat) {
    && v < |s.vouchers| && s.vouchers[v].claimedBy == Some(user)
    && s.vouchers[v].order in s.gifts && s.gifts[s.vouchers[v].order].recipient.None?
  }

  function HeldBy(s: Brand, user: nat, n: nat): (held: seq<nat>)
    requires n <= |s.vouchers|
    ensures forall v: nat :: v in held <==> v < n && IsHeld(s, v, user)
  {
    if n == 0 then [] else HeldBy(s, user, n - 1) + (if IsHeld(s, n - 1, user) then [n - 1] else [])
  }

  function ClaimAll(s: Brand, held: seq<nat>, user: nat, now: int, providerOk: bool): Result<Brand, ClaimError>
    decreases |held|
  {
    if held == [] then Ok(s) else
      match Claim(s, held[0], user, false, now, providerOk)
      case Ok(t) => ClaimAll(t, held[1..], user, now, providerOk)
      case Err(e) => Err(e)
  }

  /** Claims through several links in turn; what the user is at each, and when it happens,
      depends on the link. */
  function ClaimEach(s: Brand, vs: seq<nat>, user: nat, newly: nat -> bool, when: nat -> int, providerOk: bool)
      : Result<Brand, ClaimError>
    decreases |vs|
  {
    if vs == [] then Ok(s) else
      match Claim(s, vs[0], user, newly(vs[0]), when(vs[0]), providerOk)
      case Ok(t) => ClaimEach(t, vs[1..], user, newly, when, providerOk)
      case Err(e) => Err(e)
  }

  /** Finishing all hand-overs that waited for a profile; one failure undoes them all. */
  function CompleteClaims(s: Brand, user: nat, now: int, providerOk: bool): Result<Brand, ClaimError> {
    ClaimAll(s, HeldBy(s, user, |s.vouchers|), user, now, providerOk)
  }

  /** A recipient claims by the account name on a gift; `matched` is the one subscription, by
      its order, that carries the name and waits. */
  function ClaimDesignated(s: Brand, user: nat, matched: Option<nat>): Option<Brand> {
    if user !in s.users || matched.None? || matched.value !in s.gifts || matched.value !in s.subs then None else
    var order, gift := matched.value, s.gifts[matched.value];
    if gift.handed || gift.buyer == user || !gift.paid then None
    else if gift.recipient.Some? && gift.recipient.value != user then None
    else if gift.recipient.None? && (gift.designated.None? || gift.designated != s.users[user].name) then None
    else Some(s.(gifts := s.gifts[order := gift.(recipient := Some(user), handed := true)],
                 subs := s.subs[order := s.subs[order].(owner := user, isGift := true)]))
  }

  /** The subscription that a payment creates belongs to the recipient or to the buyer. */
  function Provide(s: Brand, order: nat): Brand {
    if order !in s.gifts || order in s.subs then s else
      var gift := s.gifts[order];
      s.(subs := s.subs[order := Sub(if gift.recipient.Some? then gift.recipient.value else gift.buyer, true)])
  }

  // ----- the invariant -----

  function By(referrer: nat): Referral -> int {
    (r: Referral) => if r.referrer == referrer then 1 else 0
  }

  function Via(link: Link): Referral -> int {
    (r: Referral) => if r.link == link then 1 else 0
  }

  /** Counters equal referral rows, each person is referred once and by the one on record, and
      a gift that was handed over belongs to its recipient. */
  ghost predicate BrandOk(s: Brand) {
    && (forall user :: CountOf(s.counts, user) == SumOf(s.referrals, By(user)))
    && (forall link :: ConversionsOf(s.conversions, link) == SumOf(s.referrals, Via(link)))
    && (forall i, j :: 0 <= i < j < |s.referrals| ==> s.referrals[i].referee != s.referrals[j].referee)
    && (forall i :: 0 <= i < |s.referrals| ==>
          && s.referrals[i].referee in s.users && s.referrals[i].referrer != s.referrals[i].referee
          && s.users[s.referrals[i].referee].referredBy == Some(s.referrals[i].referrer))
    && (forall i, j :: 0 <= i < j < |s.vouchers| ==> s.vouchers[i].order != s.vouchers[j].order)
    && (forall i :: 0 <= i < |s.vouchers| ==> s.vouchers[i].order in s.gifts)
    && (forall order :: order in s.gifts && s.gifts[order].handed ==>
          && s.gifts[order].recipient.Some? && s.gifts[order].recipient.value != s.gifts[order].buyer
          && order in s.subs && s.subs[order].owner == s.gifts[order].recipient.value)
  }

  /** Claimant, recipient and invitation are each written once. */
  ghost predicate WrittenOnce(s: Brand, t: Brand) {
    && |s.vouchers| <= |t.vouchers|
    && (forall v :: 0 <= v < |s.vouchers| ==>
          && t.vouchers[v].order == s.vouchers[v].order
          && (s.vouchers[v].claimedBy.Some? ==> t.vouchers[v] == s.vouchers[v]))
    && (forall order :: order in s.gifts ==>
          && order in t.gifts && t.gifts[order].buyer == s.gifts[order].buyer
          && (s.gifts[order].recipient.Some? ==> t.gifts[order].recipient == s.gifts[order].recipient)
          && (s.gifts[order].handed ==> t.gifts[order].handed))
    && (forall user :: user in s.users ==>
          user in t.users && (s.users[user].referredBy.Some? ==> t.users[user].referredBy == s.users[user].referredBy))
    && |s.referrals| <= |t.referrals| && t.referrals[..|s.referrals|] == s.referrals
  }

  lemma WrittenOnceTwice(s: Brand, t: Brand, u: Brand)
    requires WrittenOnce(s, t) && WrittenOnce(t, u)
    ensures WrittenOnce(s, u)
  {
  }

  lemma ReferralKeepsOk(s: Brand, referrer: nat, referee: nat, link: Link)
    requires BrandOk(s) && referee in s.users && referrer != referee
    requires s.users[referee].referredBy.None? && !IsReferred(s, referee)
    ensures BrandOk(WithReferral(s, referrer, referee, link)) && WrittenOnce(s, WithReferral(s, referrer, referee, link))
  {
    var t, r := WithReferral(s, referrer, referee, link), Referral(referrer, referee, link);
    forall user ensures CountOf(t.counts, user) == SumOf(t.referrals, By(user)) { SumPush(s.referrals, r, By(user)); }
    forall other ensures ConversionsOf(t.conversions, other) == SumOf(t.referrals, Via(other)) {
      SumPush(s.referrals, r, Via(other));
    }
  }

  lemma AttributeKeepsOk(s: Brand, user: nat, link: Link, active: bool)
    requires BrandOk(s)
    ensures BrandOk(Attribute(s, user, link, active)) && WrittenOnce(s, Attribute(s, user, link, active))
  {
    hide BrandOk;
    if Attribute(s, user, link, active) != s {
      ReferralKeepsOk(s, (if link.DefaultOf? then Some(link.user) else link.owner).value, user, link);
    }
  }

  /** The gift, its recipient and the owner of its subscription, all in one. */
  function Given(s: Brand, order: nat, user: nat): Brand
    requires order in s.gifts
  {
    s.(gifts := s.gifts[order := s.gifts[order].(recipient := Some(user), handed := true)],
       subs := s.subs[order := if order in s.subs then s.subs[order].(owner := user) else Sub(user, true)])
  }

  lemma GivenKeepsOk(s: Brand, order: nat, user: nat)
    requires BrandOk(s) && order in s.gifts && s.gifts[order].recipient.None? && s.gifts[order].buyer != user
    ensures BrandOk(Given(s, order, user)) && WrittenOnce(s, Given(s, order, user))
  {
    hide SumOf;
  }

  lemma HandOverKeepsOk(s: Brand, v: nat, user: nat, providerOk: bool)
    requires BrandOk(s) && v < |s.vouchers| && s.vouchers[v].order in s.gifts && user in s.users
    requires s.gifts[s.vouchers[v].order].buyer != user && s.gifts[s.vouchers[v].order].recipient.None?
    requires HandOver(s, v, user, providerOk).Ok?
    ensures BrandOk(HandOver(s, v, user, providerOk).value) && WrittenOnce(s, HandOver(s, v, user, providerOk).value)
  {
    hide SumOf, BrandOk, WrittenOnce;
    var order := s.vouchers[v].order;
    var given, buyer := Given(s, order, user), s.gifts[order].buyer;
    GivenKeepsOk(s, order, user);
    if s.vouchers[v].newMember && s.users[user].referredBy.None? && !IsReferred(s, user) {
      assert !IsReferred(given, user);
      ReferralKeepsOk(given, buyer, user, DefaultOf(buyer));
      WrittenOnceTwice(s, given, WithReferral(given, buyer, user, DefaultOf(buyer)));
      assert HandOver(s, v, user, providerOk).value == WithReferral(given, buyer, user, DefaultOf(buyer));
    } else {
      assert HandOver(s, v, user, providerOk).value == given;
    }
  }

  lemma ClaimantKeepsOk(s: Brand, v: nat, user: nat, newly: bool)
    requires BrandOk(s) && v < |s.vouchers|
    ensures BrandOk(WithClaimant(s, v, user, newly)) && WrittenOnce(s, WithClaimant(s, v, user, newly))
  {
    hide SumOf;
  }

  lemma ClaimKeepsOk(s: Brand, v: nat, user: nat, newly: bool, now: int, providerOk: bool)
    requires BrandOk(s) && Claim(s, v, user, newly, now, providerOk).Ok?
    ensures var t := Claim(s, v, user, newly, now, providerOk).value; BrandOk(t) && WrittenOnce(s, t)
  {
    hide HandOver, SumOf, BrandOk, WrittenOnce;
    WrittenItself(s);
    if s.gifts[s.vouchers[v].order].recipient.None? {
      var r := WithClaimant(s, v, user, newly);
      ClaimantKeepsOk(s, v, user, newly);
      if s.users[user].complete {
        HandOverKeepsOk(r, v, user, providerOk);
        WrittenOnceTwice(s, r, HandOver(r, v, user, providerOk).value);
      }
    }
  }

  lemma {:induction false} ClaimAllKeepsOk(s: Brand, held: seq<nat>, user: nat, now: int, providerOk: bool)
    requires BrandOk(s) && ClaimAll(s, held, user, now, providerOk).Ok?
    ensures var t := ClaimAll(s, held, user, now, providerOk).value; BrandOk(t) && WrittenOnce(s, t)
    decreases |held|
  {
    hide BrandOk, Claim, WrittenOnce;
    WrittenItself(s);
    if held != [] {
      var t := Claim(s, held[0], user, false, now, providerOk).value;
      ClaimKeepsOk(s, held[0], user, false, now, providerOk);
      ClaimAllKeepsOk(t, held[1..], user, now, providerOk);
      WrittenOnceTwice(s, t, ClaimAll(t, held[1..], user, now, providerOk).value);
    }
  }

  lemma DesignatedKeepsOk(s: Brand, user: nat, matched: Option<nat>)
    requires BrandOk(s) && ClaimDesignated(s, user, matched).Some?
    ensures BrandOk(ClaimDesignated(s, user, matched).value) && WrittenOnce(s, ClaimDesignated(s, user, matched).value)
  {
    hide SumOf;
  }

  // ----- runs -----

  datatype Step =
    | Join(user: nat, name: Option<nat>)
    | Invite(user: nat, link: Link, active: bool)
    | FillProfile(user: nat)
    | Buy(order: nat, buyer: nat, recipient: Option<nat>, designated: Option<nat>)
    | SetPaid(order: nat, paid: bool)
    | Issue(order: nat, expires: int)
    | ProvideSub(order: nat)
    | ClaimLink(v: nat, user: nat, newly: bool, now: int, providerOk: bool)
    | Finish(user: nat, now: int, providerOk: bool)
    | ClaimName(user: nat, matched: Option<nat>)

  function WithProfile(s: Brand, user: nat): Brand {
    if user in s.users then s.(users := s.users[user := s.users[user].(complete := true)]) else s
  }

  predicate HasVoucher(s: Brand, order: nat) {
    exists v :: 0 <= v < |s.vouchers| && s.vouchers[v].order == order
  }

  /** A step that raises changes nothing. */
  function Next(s: Brand, step: Step): Brand {
    match step
    case Join(user, name) =>
      if user in s.users then s else s.(users := s.users[user := User(true, false, None, name)])
    case Invite(user, link, active) => Attribute(s, user, link, active)
    case FillProfile(user) => WithProfile(s, user)
    case Buy(order, buyer, recipient, designated) =>
      if order in s.gifts || order in s.subs then s
      else s.(gifts := s.gifts[order := Gift(buyer, false, recipient, false, designated)])
    case SetPaid(order, paid) =>
      if order in s.gifts then s.(gifts := s.gifts[order := s.gifts[order].(paid := paid)]) else s
    case Issue(order, expires) =>
      if order !in s.gifts || s.gifts[order].recipient.Some? || !s.gifts[order].paid || HasVoucher(s, order) then s
      else s.(vouchers := s.vouchers + [Voucher(order, None, false, expires)])
    case ProvideSub(order) => Provide(s, order)
    case ClaimLink(v, user, newly, now, providerOk) =>
      (match Claim(s, v, user, newly, now, providerOk) case Ok(t) => t case Err(_) => s)
    case Finish(user, now, providerOk) =>
      (match CompleteClaims(s, user, now, providerOk) case Ok(t) => t case Err(_) => s)
    case ClaimName(user, matched) =>
      (match ClaimDesignated(s, user, matched) case Some(t) => t case None => s)
  }

  function Run(s: Brand, steps: seq<Step>): Brand
    decreases |steps|
  {
    if steps == [] then s else Run(Next(s, steps[0]), steps[1..])
  }

  /** Steps of the surroundings: people, purchases, payments and links. */
  lemma PeopleKeepOk(s: Brand, step: Step)
    requires BrandOk(s) && (step.Join? || step.FillProfile?)
    ensures BrandOk(Next(s, step)) && WrittenOnce(s, Next(s, step))
  {
    hide SumOf;
  }

  lemma SurroundingsKeepOk(s: Brand, step: Step)
    requires BrandOk(s) && (step.SetPaid? || step.Issue?)
    ensures BrandOk(Next(s, step)) && WrittenOnce(s, Next(s, step))
  {
    hide SumOf;
  }

  lemma PurchaseKeepsOk(s: Brand, step: Step)
    requires BrandOk(s) && (step.Buy? || step.ProvideSub?)
    ensures BrandOk(Next(s, step)) && WrittenOnce(s, Next(s, step))
  {
    hide SumOf;
  }

  lemma NextKeepsOk(s: Brand, step: Step)
    requires BrandOk(s)
    ensures BrandOk(Next(s, step)) && WrittenOnce(s, Next(s, step))
  {
    hide Claim, ClaimAll, ClaimDesignated, Attribute, SumOf, BrandOk, WrittenOnce;
    WrittenItself(s);
    match step
    case Invite(user, link, active) => AttributeKeepsOk(s, user, link, active);
    case ClaimLink(v, user, newly, now, providerOk) =>
      if Claim(s, v, user, newly, now, providerOk).Ok? { ClaimKeepsOk(s, v, user, newly, now, providerOk); }
    case Finish(user, now, providerOk) =>
      if CompleteClaims(s, user, now, providerOk).Ok? {
        ClaimAllKeepsOk(s, HeldBy(s, user, |s.vouchers|), user, now, providerOk);
      }
    case ClaimName(user, matched) =>
      if ClaimDesignated(s, user, matched).Some? { DesignatedKeepsOk(s, user, matched); }
    case Buy(_, _, _, _) => PurchaseKeepsOk(s, step);
    case ProvideSub(_) => PurchaseKeepsOk(s, step);
    case Join(_, _) => PeopleKeepOk(s, step);
    case FillProfile(_) => PeopleKeepOk(s, step);
    case _ => SurroundingsKeepOk(s, step);
  }

  /** Over every run of both claim paths, invitations, purchases and hand-overs: counters equal
      rows, a handed gift belongs to its recipient, and claimant, recipient and invitation
      are never rewritten. */
  lemma {:induction false} RunKeepsOk(s: Brand, steps: seq<Step>)
    requires BrandOk(s)
    ensures BrandOk(Run(s, steps)) && WrittenOnce(s, Run(s, steps))
    decreases |steps|
  {
    hide BrandOk, Next, WrittenOnce;
    if steps == [] {
      assert WrittenOnce(s, s) by { WrittenItself(s); }
    } else {
      NextKeepsOk(s, steps[0]);
      RunKeepsOk(Next(s, steps[0]), steps[1..]);
      WrittenOnceTwice(s, Next(s, steps[0]), Run(s, steps));
    }
  }

  lemma WrittenItself(s: Brand)
    ensures WrittenOnce(s, s)
  {
  }

  // ----- the two phases -----

  /** The second brand differs from the first only in links that the user has not reserved
      there yet, and still can. */
  ghost predicate Reserves(s: Brand, t: Brand, user: nat, newly: nat -> bool, when: nat -> int) {
    && t == s.(vouchers := t.vouchers) && |t.vouchers| == |s.vouchers|
    && forall v: nat :: v < |s.vouchers| && t.vouchers[v] != s.vouchers[v] ==>
         && s.vouchers[v].claimedBy.None? && when(v) < s.vouchers[v].expires
         && t.vouchers[v] == s.vouchers[v].(claimedBy := Some(user), newMember := newly(v))
         && s.vouchers[v].order in s.gifts && s.gifts[s.vouchers[v].order].recipient.None?
  }

  /** Claims before the profile is complete do nothing but reserve. */
  lemma {:induction false} ClaimsReserve(s: Brand, t: Brand, vs: seq<nat>, user: nat, newly: nat -> bool,
                                         when: nat -> int, providerOk: bool)
    requires Reserves(s, t, user, newly, when) && user in s.users && !s.users[user].complete
    requires ClaimEach(t, vs, user, newly, when, providerOk).Ok?
    ensures Reserves(s, ClaimEach(t, vs, user, newly, when, providerOk).value, user, newly, when)
    decreases |vs|
  {
    hide HandOver;
    if vs != [] {
      var u := Claim(t, vs[0], user, newly(vs[0]), when(vs[0]), providerOk).value;
      ClaimsReserve(s, u, vs[1..], user, newly, when, providerOk);
    }
  }

  /** A hand-over looks at no other link. */
  lemma HandOverIgnoresOthers(s: Brand, t: Brand, v: nat, user: nat, providerOk: bool)
    requires v < |s.vouchers| == |t.vouchers| && t == s.(vouchers := t.vouchers) && t.vouchers[v] == s.vouchers[v]
    requires s.vouchers[v].order in s.gifts && user in s.users
    ensures match HandOver(s, v, user, providerOk)
            case Ok(u) => HandOver(t, v, user, providerOk) == Ok(u.(vouchers := t.vouchers)) && u.vouchers == s.vouchers
                          && u.gifts == s.gifts[s.vouchers[v].order :=
                               s.gifts[s.vouchers[v].order].(recipient := Some(user), handed := true)]
                          && u.users.Keys == s.users.Keys && u.users[user].complete == s.users[user].complete
            case Err(e) => HandOver(t, v, user, providerOk) == Err(e)
  {
    assert IsReferred(t, user) == IsReferred(s, user) by { SameReferrals(t, s, user); }
    hide IsReferred;
  }

  predicate Ascending(vs: seq<nat>) {
    forall i, j :: 0 <= i < j < |vs| ==> vs[i] < vs[j]
  }

  predicate OrdersDiffer(vouchers: seq<Voucher>) {
    forall i, j :: 0 <= i < j < |vouchers| ==> vouchers[i].order != vouchers[j].order
  }

  /** One hand-over of a reserved link, and the direct claim through the same link. */
  lemma FinishOne(s: Brand, t: Brand, v: nat, user: nat, newly: nat -> bool, when: nat -> int, later: int, providerOk: bool)
    requires Reserves(s, t, user, newly, when) && OrdersDiffer(t.vouchers)
    requires user in s.users && s.users[user].complete && IsHeld(t, v, user)
    ensures match Claim(t, v, user, false, later, providerOk)
            case Err(e) => Claim(s, v, user, newly(v), when(v), providerOk) == Err(e)
            case Ok(u) =>
              && Claim(s, v, user, newly(v), when(v), providerOk).Ok?
              && var d := Claim(s, v, user, newly(v), when(v), providerOk).value;
              && Reserves(d, u, user, newly, when) && u.vouchers == t.vouchers && d.vouchers == s.vouchers[v := t.vouchers[v]]
              && user in d.users && d.users[user].complete
              && forall w: nat :: w != v && IsHeld(t, w, user) ==> IsHeld(u, w, user)
  {
    hide HandOver, IsReferred;
    var r := WithClaimant(s, v, user, newly(v));
    assert r == t.(vouchers := r.vouchers) && r.vouchers[v] == t.vouchers[v];
    HandOverIgnoresOthers(t, r, v, user, providerOk);
  }

  lemma {:induction false} FinishAll(s: Brand, t: Brand, held: seq<nat>, user: nat, newly: nat -> bool, when: nat -> int,
                                     later: int, providerOk: bool)
    requires Reserves(s, t, user, newly, when) && OrdersDiffer(t.vouchers) && Ascending(held)
    requires user in s.users && s.users[user].complete && forall v :: v in held ==> IsHeld(t, v, user)
    requires forall v: nat :: v < |s.vouchers| && t.vouchers[v] != s.vouchers[v] ==> v in held
    ensures ClaimAll(t, held, user, later, providerOk) == ClaimEach(s, held, user, newly, when, providerOk)
    decreases |held|
  {
    hide Claim, IsHeld;
    if held == [] {
      assert t.vouchers == s.vouchers;
    } else {
      var v := held[0];
      FinishOne(s, t, v, user, newly, when, later, providerOk);
      if Claim(t, v, user, false, later, providerOk).Ok? {
        var u := Claim(t, v, user, false, later, providerOk).value;
        var d := Claim(s, v, user, newly(v), when(v), providerOk).value;
        forall w: nat | w < |d.vouchers| && u.vouchers[w] != d.vouchers[w] ensures w in held[1..] {
          assert w in held && w != v;
        }
        FinishAll(d, u, held[1..], user, newly, when, later, providerOk);
      }
    }
  }

  lemma {:induction false} HeldAscending(s: Brand, user: nat, n: nat)
    requires n <= |s.vouchers|
    ensures Ascending(HeldBy(s, user, n))
  {
    if n > 0 {
      HeldAscending(s, user, n - 1);
      var front := HeldBy(s, user, n - 1);
      forall i | 0 <= i < |front| ensures front[i] < n - 1 { assert front[i] in front; }
    }
  }

  /** The two phases together do what one does. Links claimed before the profile is complete,
      however many and in whatever order, and finished later, also after they have expired,
      end exactly as direct claims with a complete profile taken in voucher order. */
  lemma HeldThenFinished(s: Brand, vs: seq<nat>, user: nat, newly: nat -> bool, when: nat -> int, later: int,
                         providerOk: bool)
    requires BrandOk(s) && user in s.users && !s.users[user].complete
    requires ClaimEach(s, vs, user, newly, when, providerOk).Ok?
    ensures var t := ClaimEach(s, vs, user, newly, when, providerOk).value;
            CompleteClaims(WithProfile(t, user), user, later, providerOk)
              == ClaimEach(WithProfile(s, user), HeldBy(t, user, |t.vouchers|), user, newly, when, providerOk)
  {
    hide Claim, HeldBy, ClaimEach, ClaimAll;
    var t := ClaimEach(s, vs, user, newly, when, providerOk).value;
    ClaimsReserve(s, s, vs, user, newly, when, providerOk);
    var held := HeldBy(t, user, |t.vouchers|);
    SameHeld(t, WithProfile(t, user), user, |t.vouchers|);
    HeldAscending(t, user, |t.vouchers|);
    assert OrdersDiffer(t.vouchers) by { OrdersOf(s, t, user, newly, when); }
    FinishAll(WithProfile(s, user), WithProfile(t, user), held, user, newly, when, later, providerOk);
  }

  lemma {:induction false} SameHeld(s: Brand, t: Brand, user: nat, n: nat)
    requires t.vouchers == s.vouchers && t.gifts == s.gifts && n <= |s.vouchers|
    ensures HeldBy(t, user, n) == HeldBy(s, user, n)
    ensures forall v: nat :: IsHeld(t, v, user) == IsHeld(s, v, user)
  {
    SameHolds(s, t, user);
    hide IsHeld;
    if n > 0 { SameHeld(s, t, user, n - 1); }
  }

  lemma SameHolds(s: Brand, t: Brand, user: nat)
    requires t.vouchers == s.vouchers && t.gifts == s.gifts
    ensures forall v: nat :: IsHeld(t, v, user) == IsHeld(s, v, user)
  {
  }

  lemma OrdersOf(s: Brand, t: Brand, user: nat, newly: nat -> bool, when: nat -> int)
    requires BrandOk(s) && Reserves(s, t, user, newly, when)
    ensures OrdersDiffer(t.vouchers)
  {
    hide SumOf;
    assert forall v :: 0 <= v < |t.vouchers| ==> t.vouchers[v].order == s.vouchers[v].order;
  }

  // ----- claimant and recipient -----

  /** Claimant, recipient and owner are the same person. */
  predicate AllAgree(s: Brand, v: nat, user: nat) {
    && v < |s.vouchers| && s.vouchers[v].order in s.gifts && s.vouchers[v].order in s.subs
    && s.vouchers[v].claimedBy == Some(user) == s.gifts[s.vouchers[v].order].recipient
    && s.subs[s.vouchers[v].order].owner == user
  }

  /** A gift handed over through its link goes to the voucher's claimant. */
  lemma LinkHandsToClaimant(s: Brand, v: nat, user: nat, newly: bool, now: int, providerOk: bool)
    requires Claim(s, v, user, newly, now, providerOk).Ok? && s.gifts[s.vouchers[v].order].recipient.None?
    ensures s.users[user].complete <==> AllAgree(Claim(s, v, user, newly, now, providerOk).value, v, user)
  {
    hide HandOver;
    var reserved := WithClaimant(s, v, user, newly);
    if s.users[user].complete { HandOverAgrees(reserved, v, user, providerOk); }
  }

  lemma HandOverAgrees(s: Brand, v: nat, user: nat, providerOk: bool)
    requires v < |s.vouchers| && s.vouchers[v].order in s.gifts && user in s.users
    requires s.vouchers[v].claimedBy == Some(user) && HandOver(s, v, user, providerOk).Ok?
    ensures AllAgree(HandOver(s, v, user, providerOk).value, v, user)
  {
    hide IsReferred;
  }

  /** A claim by name makes claimant and recipient agree exactly when the claimant is the
      one who reserved the link. */
  lemma NameAgreesWithLink(s: Brand, order: nat, v: nat, user: nat)
    requires v < |s.vouchers| && s.vouchers[v].order == order && ClaimDesignated(s, user, Some(order)).Some?
    ensures AllAgree(ClaimDesignated(s, user, Some(order)).value, v, user) <==> s.vouchers[v].claimedBy == Some(user)
  {
  }

  /** Nobody but the recipient of a gift has reserved its link. */
  ghost predicate Agreed(s: Brand) {
    forall v :: 0 <= v < |s.vouchers| && s.vouchers[v].order in s.gifts ==>
      var recipient, claimant := s.gifts[s.vouchers[v].order].recipient, s.vouchers[v].claimedBy;
      recipient.Some? && claimant.Some? ==> claimant == recipient
  }

  /** A claim by name goes through although somebody else has reserved the gift's link. */
  predicate Disputes(s: Brand, step: Step) {
    && step.ClaimName? && ClaimDesignated(s, step.user, step.matched).Some?
    && exists v :: 0 <= v < |s.vouchers| && s.vouchers[v].order == step.matched.value
         && s.vouchers[v].claimedBy.Some? && s.vouchers[v].claimedBy.value != step.user
  }

  lemma DesignatedAgrees(s: Brand, user: nat, matched: Option<nat>)
    requires Agreed(s) && ClaimDesignated(s, user, matched).Some?
    ensures Agreed(ClaimDesignated(s, user, matched).value) <==>
      forall v :: 0 <= v < |s.vouchers| && s.vouchers[v].order == matched.value ==>
        s.vouchers[v].claimedBy.None? || s.vouchers[v].claimedBy == Some(user)
  {
    var t := ClaimDesignated(s, user, matched).value;
    forall v | 0 <= v < |s.vouchers| && s.vouchers[v].order == matched.value && Agreed(t)
      ensures s.vouchers[v].claimedBy.None? || s.vouchers[v].claimedBy == Some(user)
    {
      assert t.vouchers[v].order in t.gifts;
    }
  }

  lemma ClaimAgrees(s: Brand, v: nat, user: nat, newly: bool, now: int, providerOk: bool)
    requires BrandOk(s) && Agreed(s) && Claim(s, v, user, newly, now, providerOk).Ok?
    ensures Agreed(Claim(s, v, user, newly, now, providerOk).value)
  {
    hide SumOf, HandOver;
    if s.gifts[s.vouchers[v].order].recipient.None? {
      var r := WithClaimant(s, v, user, newly);
      if s.users[user].complete { HandOverIgnoresOthers(r, r, v, user, providerOk); }
    }
  }

  lemma {:induction false} ClaimAllAgrees(s: Brand, held: seq<nat>, user: nat, now: int, providerOk: bool)
    requires BrandOk(s) && Agreed(s) && ClaimAll(s, held, user, now, providerOk).Ok?
    ensures Agreed(ClaimAll(s, held, user, now, providerOk).value)
    decreases |held|
  {
    hide BrandOk, Claim, Agreed;
    if held != [] {
      ClaimAgrees(s, held[0], user, false, now, providerOk);
      ClaimKeepsOk(s, held[0], user, false, now, providerOk);
      ClaimAllAgrees(Claim(s, held[0], user, false, now, providerOk).value, held[1..], user, now, providerOk);
    }
  }

  lemma AttributeLeavesGifts(s: Brand, user: nat, link: Link, active: bool)
    ensures Attribute(s, user, link, active).vouchers == s.vouchers && Attribute(s, user, link, active).gifts == s.gifts
  {
  }

  /** A claim by name that meets a foreign reservation is the only step that makes them
      disagree. */
  lemma NextAgrees(s: Brand, step: Step)
    requires BrandOk(s) && Agreed(s)
    ensures Agreed(Next(s, step)) <==> !Disputes(s, step)
  {
    hide Claim, ClaimAll, ClaimDesignated, Attribute, SumOf;
    match step
    case Invite(user, link, active) => AttributeLeavesGifts(s, user, link, active);
    case ClaimLink(v, user, newly, now, providerOk) =>
      if Claim(s, v, user, newly, now, providerOk).Ok? { ClaimAgrees(s, v, user, newly, now, providerOk); }
    case Finish(user, now, providerOk) =>
      if CompleteClaims(s, user, now, providerOk).Ok? {
        ClaimAllAgrees(s, HeldBy(s, user, |s.vouchers|), user, now, providerOk);
      }
    case ClaimName(user, matched) =>
      if ClaimDesignated(s, user, matched).Some? { DesignatedAgrees(s, user, matched); }
    case _ =>
  }

  /** Claimant and recipient are both final, so a disagreement is final as well. */
  lemma DisagreementStays(s: Brand, t: Brand)
    requires WrittenOnce(s, t) && Agreed(t)
    ensures Agreed(s)
  {
    forall v | 0 <= v < |s.vouchers| && s.vouchers[v].order in s.gifts
      ensures var recipient, claimant := s.gifts[s.vouchers[v].order].recipient, s.vouchers[v].claimedBy;
              recipient.Some? && claimant.Some? ==> claimant == recipient
    {
      assert t.vouchers[v].order in t.gifts;
    }
  }

  /** No claim by name of the run meets a link that somebody else has reserved. */
  predicate Undisputed(s: Brand, steps: seq<Step>)
    decreases |steps|
  {
    steps == [] || (!Disputes(s, steps[0]) && Undisputed(Next(s, steps[0]), steps[1..]))
  }

  /** Over every run the claimant of a link is the recipient of the gift if and only if no
      claim by name went through on a gift whose link somebody else had reserved. */
  lemma {:induction false} AgreedOverRuns(s: Brand, steps: seq<Step>)
    requires BrandOk(s) && Agreed(s)
    ensures Agreed(Run(s, steps)) <==> Undisputed(s, steps)
    decreases |steps|
  {
    hide BrandOk, Agreed, Next, Disputes, WrittenOnce;
    if steps != [] {
      NextAgrees(s, steps[0]);
      NextKeepsOk(s, steps[0]);
      if Disputes(s, steps[0]) {
        RunKeepsOk(Next(s, steps[0]), steps[1..]);
        if Agreed(Run(s, steps)) { DisagreementStays(Next(s, steps[0]), Run(s, steps)); }
      } else {
        AgreedOverRuns(Next(s, steps[0]), steps[1..]);
      }
    }
  }

  /** A paid gift of user 1 with a link, on whose order user 3 is noted as the recipient. */
  function Contested(): Brand {
    Brand(map[1 := User(true, true, None, None), 2 := User(true, false, None, None), 3 := User(true, true, None, Some(30))],
          map[7 := Gift(1, true, None, false, Some(30))], [Voucher(7, None, false, 100)], map[7 := Sub(1, true)],
          [], map[], map[])
  }

  function Dispute(): seq<Step> {
    [ClaimLink(0, 2, true, 0, true), ClaimName(3, Some(7)), FillProfile(2), Finish(2, 1, true)]
  }

  /** The two paths can disagree: user 2 reserves the link before completing a profile, user 3
      then claims by name. The claimant on the voucher is not the recipient, nothing is left
      to finish for the claimant, and another claim is refused. */
  lemma ClaimantNeedNotBeRecipient()
    ensures Agreed(Contested()) && !Undisputed(Contested(), Dispute())
    ensures var t := Contested().(
              users := Contested().users[2 := User(true, true, None, None)],
              vouchers := [Voucher(7, Some(2), true, 100)],
              gifts := map[7 := Gift(1, true, Some(3), true, Some(30))], subs := map[7 := Sub(3, true)]);
            Run(Contested(), Dispute()) == t && Claim(t, 0, 2, false, 1, true) == Err(AlreadyReceived)
  {
    var s := Contested();
    var a := s.(vouchers := [Voucher(7, Some(2), true, 100)]);
    assert Next(s, ClaimLink(0, 2, true, 0, true)) == a;
    var b := a.(gifts := map[7 := Gift(1, true, Some(3), true, Some(30))], subs := map[7 := Sub(3, true)]);
    assert Next(a, ClaimName(3, Some(7))) == b;
    var c := b.(users := b.users[2 := User(true, true, None, None)]);
    assert Next(b, FillProfile(2)) == c;
    assert Next(c, Finish(2, 1, true)) == c by {
      assert !IsHeld(c, 0, 2);
      assert HeldBy(c, 2, 0) == [] && HeldBy(c, 2, 1) == [];
    }
    RunOfFour(s, a, b, c, Dispute());
  }

  lemma RunOfFour(s: Brand, a: Brand, b: Brand, c: Brand, steps: seq<Step>)
    requires |steps| == 4 && Next(s, steps[0]) == a && Next(a, steps[1]) == b && Next(b, steps[2]) == c && Next(c, steps[3]) == c
    ensures Run(s, steps) == c
  {
    hide Next;
    assert steps[1..][1..] == steps[2..] && steps[2..][1..] == steps[3..] && steps[3..][1..] == [];
    assert Run(c, []) == c && Run(c, steps[3..]) == c;
    assert Run(b, steps[2..]) == c && Run(a, steps[1..]) == c;
  }

  // ----- the brand's tables as an object -----

  class GiftRegistry {
    var users: map<nat, User>
    var gifts: map<nat, Gift>
    var vouchers: seq<Voucher>
    var subs: map<nat, Sub>
    var referrals: seq<Referral>
    var counts: map<nat, int>
    var conversions: map<Link, int>

    constructor (s: Brand)
      ensures Tables() == s
    {
      users, gifts, vouchers, subs := s.users, s.gifts, s.vouchers, s.subs;
      referrals, counts, conversions := s.referrals, s.counts, s.conversions;
    }

    function Tables(): Brand
      reads this
    {
      Brand(users, gifts, vouchers, subs, referrals, counts, conversions)
    }

    method Restore(s: Brand)
      modifies this
      ensures Tables() == s
    {
      users, gifts, vouchers, subs := s.users, s.gifts, s.vouchers, s.subs;
      referrals, counts, conversions := s.referrals, s.counts, s.conversions;
    }

    /** Create a referral row and move the two counters with it. */
    method CreateReferral(referrer: nat, referee: nat, link: Link)
      requires referee in users
      modifies this`referrals, this`users, this`counts, this`conversions
      ensures Tables() == WithReferral(old(Tables()), referrer, referee, link)
    {
      referrals := referrals + [Referral(referrer, referee, link)];
      users := users[referee := users[referee].(referredBy := Some(referrer))];
      counts := counts[referrer := CountOf(counts, referrer) + 1];
      conversions := conversions[link := ConversionsOf(conversions, link) + 1];
    }

    method AttributeReferral(user: nat, link: Link, active: bool) returns (attributed: bool)
      modifies this`referrals, this`users, this`counts, this`conversions
      ensures Tables() == Attribute(old(Tables()), user, link, active)
      ensures attributed <==> |referrals| == |old(referrals)| + 1
    {
      if user !in users || users[user].referredBy.Some? || !active { return false; }
      var owner := if link.DefaultOf? then Some(link.user) else link.owner;
      if owner.None? || owner.value == user || owner.value !in users { return false; }
      if IsReferred(Tables(), user) { return false; }
      CreateReferral(owner.value, user, link);
      return true;
    }

    /** Claim a gift through its link; a refusal changes nothing. */
    method ClaimGift(v: nat, user: nat, newly: bool, now: int, providerOk: bool) returns (error: Option<ClaimError>)
      modifies this
      ensures match Claim(old(Tables()), v, user, newly, now, providerOk)
              case Ok(after) => error.None? && Tables() == after
              case Err(e) => error == Some(e) && Tables() == old(Tables())
    {
      hide IsReferred;
      if v >= |vouchers| || vouchers[v].order !in gifts { return Some(NoSuchLink); }
      var voucher, order := vouchers[v], vouchers[v].order;
      var gift := gifts[order];
      if voucher.expires <= now && voucher.claimedBy.None? { return Some(NoSuchLink); }
      if voucher.claimedBy.Some? && voucher.claimedBy.value != user { return Some(AlreadyUsed); }
      if !gift.paid { return Some(NotPaid); }
      if gift.buyer == user { return Some(OwnGift); }
      if user !in users || !users[user].active { return Some(NoSuchUser); }
      if gift.recipient.Some? { return if gift.recipient.value == user then None else Some(AlreadyReceived); }
      var saved := Tables();
      if voucher.claimedBy.None? {
        voucher := voucher.(claimedBy := Some(user), newMember := newly);
        vouchers := vouchers[v := voucher];
      }
      if !users[user].complete { return None; }
      gifts := gifts[order := gift.(recipient := Some(user), handed := true)];
      ghost var given := Tables();
      assert IsReferred(given, user) == IsReferred(saved, user) by { SameReferrals(given, saved, user); }
      if voucher.newMember && users[user].referredBy.None? && !IsReferred(Tables(), user) {
        CreateReferral(gift.buyer, user, DefaultOf(gift.buyer));
      }
      if order in subs {
        subs := subs[order := subs[order].(owner := user)];
      } else if providerOk {
        subs := subs[order := Sub(user, true)];
      } else {
        Restore(saved);
        return Some(NoProvider);
      }
      assert IsReferred(WithClaimant(saved, v, user, newly), user) == IsReferred(saved, user) by {
        SameReferrals(WithClaimant(saved, v, user, newly), saved, user);
      }
      return None;
    }

    /** Finish every hand-over that waited for this user's profile. */
    method CompleteClaimedGifts(user: nat, now: int, providerOk: bool) returns (error: Option<ClaimError>)
      modifies this
      ensures match CompleteClaims(old(Tables()), user, now, providerOk)
              case Ok(after) => error.None? && Tables() == after
              case Err(e) => error == Some(e) && Tables() == old(Tables())
    {
      hide Claim, HeldBy;
      var saved := Tables();
      var held := HeldBy(Tables(), user, |vouchers|);
      var i := 0;
      while i < |held|
        invariant i <= |held|
        invariant ClaimAll(Tables(), held[i..], user, now, providerOk) == ClaimAll(saved, held, user, now, providerOk)
      {
        assert held[i..][0] == held[i] && held[i..][1..] == held[i + 1..];
        error := ClaimGift(held[i], user, false, now, providerOk);
        if error.Some? {
          Restore(saved);
          return;
        }
        i := i + 1;
      }
      return None;
    }

    /** Claim the gift that names this user. Who claims is then recipient and owner; claims
        on links and all other gifts stay as they are. */
    method ClaimDesignatedGift(user: nat, matched: Option<nat>) returns (ok: bool)
      modifies this`gifts, this`subs
      ensures match ClaimDesignated(old(Tables()), user, matched)
              case Some(after) => ok && Tables() == after
              case None => !ok && Tables() == old(Tables())
      ensures ok ==> matched.Some? && matched.value in gifts && matched.value in subs
      ensures ok ==> gifts[matched.value].recipient == Some(user) && subs[matched.value].owner == user
      ensures ok ==> gifts[matched.value].handed && gifts[matched.value].buyer != user
      ensures vouchers == old(vouchers) && gifts.Keys == old(gifts).Keys
      ensures forall order :: order in gifts && Some(order) != matched ==> gifts[order] == old(gifts)[order]
      ensures forall order :: order in gifts && old(gifts)[order].recipient.Some? ==>
        gifts[order].recipient == old(gifts)[order].recipient
    {
      if user !in users || matched.None? || matched.value !in gifts || matched.value !in subs { return false; }
      var order, gift := matched.value, gifts[matched.value];
      if gift.handed || gift.buyer == user || !gift.paid { return false; }
      if gift.recipient.Some? {
        if gift.recipient.value != user { return false; }
      } else if gift.designated.None? || gift.designated != users[user].name {
        return false;
      }
      gifts := gifts[order := gift.(recipient := Some(user), handed := true)];
      subs := subs[order := subs[order].(owner := user, isGift := true)];
      return true;
    }
  }

  lemma SameReferrals(s: Brand, t: Brand, user: nat)
    requires s.referrals == t.referrals
    ensures IsReferred(s, user) == IsReferred(t, user)
  {
  }
}
