/**
 * The invite list of `ServerInviteManager`: how an invite row is classified (expired, used up,
 * inactive), which badge, usage text and buttons it shows, and the options a new invite is
 * asked for with. Times are integers (milliseconds); `now` is the clock reading.
 */
module InviteStatus {
  import opened Wrappers
  import opened Text
  import opened EdgeRows
  import EdgeQueries

  /** An invite as the list receives it: the table row and its creator's profile. */
  datatype Invite = Invite(row: InviteRow, username: string, displayName: Option<string>)

  /** `isExpired(expires_at)`: no expiry never expires; otherwise expired once it lies in the past. */
  predicate IsExpired(expiresAt: Option<int>, now: int) {
    expiresAt.Some? && expiresAt.value < now
  }

  /** `isMaxUsesReached(invite)`: an absent or zero limit is never reached. */
  predicate IsMaxUsesReached(invite: Invite) {
    TruthyNum(invite.row.maxUses) && invite.row.usedCount >= invite.row.maxUses.value
  }

  /** The `inactive` flag that dims the card. */
  predicate IsInactive(invite: Invite, now: int) {
    !invite.row.isActive || IsExpired(invite.row.expiresAt, now) || IsMaxUsesReached(invite)
  }

  /** The list's verdict matches the server's: an invite it shows as active is one the server admits. */
  lemma InactiveIffServerRefuses(invite: Invite, now: int)
    ensures IsInactive(invite, now)
      <==> !invite.row.isActive || EdgeQueries.Expired(invite.row, now) || EdgeQueries.UsedUp(invite.row)
  {
  }

  datatype Badge = Active | Disabled | ExpiredBadge | Exhausted

  /** The badge: disabled before expired before exhausted; "active" only when none applies. */
  function BadgeOf(invite: Invite, now: int): (b: Badge)
    ensures b == Active <==> !IsInactive(invite, now)
    ensures b == Disabled <==> !invite.row.isActive
    ensures b == ExpiredBadge <==> invite.row.isActive && IsExpired(invite.row.expiresAt, now)
    ensures b == Exhausted <==>
      invite.row.isActive && !IsExpired(invite.row.expiresAt, now) && IsMaxUsesReached(invite)
  {
    if IsInactive(invite, now) then
      if !invite.row.isActive then Disabled
      else if IsExpired(invite.row.expiresAt, now) then ExpiredBadge
      else Exhausted
    else Active
  }

  /** The badge's text. */
  function BadgeText(b: Badge): (t: string)
    ensures b == Active <==> t == "Активно"
  {
    match b
    case Active => "Активно"
    case Disabled => "Отключено"
    case ExpiredBadge => "Истекло"
    case Exhausted => "Исчерпано"
  }

  /** The deactivate button is offered for every invite still marked active, expired or not. */
  predicate ShowsDeactivate(invite: Invite) {
    invite.row.isActive
  }

  /** The button is missing exactly on the invites badged "disabled". */
  lemma DeactivateIffNotDisabled(invite: Invite, now: int)
    ensures ShowsDeactivate(invite) <==> BadgeOf(invite, now) != Disabled
  {
  }

  /** The creator shown on the card: the display name when it is non-empty, else the username. */
  function CreatorName(invite: Invite): (r: string)
    ensures Truthy(invite.displayName) ==> r == invite.displayName.value
    ensures !Truthy(invite.displayName) ==> r == invite.username
  {
    if Truthy(invite.displayName) then invite.displayName.value else invite.username
  }

  /** The usage text: the count, then "/" and the limit when there is a (non-zero) limit. */
  function UsageText(invite: Invite): (r: string)
    ensures '/' in r <==> TruthyNum(invite.row.maxUses)
  {
    IntToString(invite.row.usedCount)
      + (if TruthyNum(invite.row.maxUses) then "/" + IntToString(invite.row.maxUses.value) else "")
  }

  lemma SlashNotInNumber(i: int)
    ensures '/' !in IntToString(i)
  {
    var s := IntToString(i);
    forall k | 0 <= k < |s|
      ensures s[k] != '/'
    {
      if k > 0 {
        assert IsDigit(s[k]);
      }
    }
  }

  /** Two numbers joined by '/' split back into their two renderings. */
  lemma SplitAtSlash(a: int, b: int)
    ensures Split(IntToString(a) + ['/'] + IntToString(b), '/') == [IntToString(a), IntToString(b)]
  {
    SlashNotInNumber(a);
    SlashNotInNumber(b);
    SplitWithoutSeparator(IntToString(a), '/');
    SplitWithoutSeparator(IntToString(b), '/');
    SplitAppend(IntToString(a), IntToString(b), '/');
  }

  /** The usage text splits at '/' into the count and, when shown, the limit, and each reads back. */
  lemma UsageTextReadsBack(invite: Invite)
    ensures var pieces := Split(UsageText(invite), '/');
      ParseInt(pieces[0]) == Some(invite.row.usedCount)
      && (TruthyNum(invite.row.maxUses) <==> |pieces| == 2)
      && (|pieces| == 2 ==> ParseInt(pieces[1]) == invite.row.maxUses)
  {
    var used := invite.row.usedCount;
    if TruthyNum(invite.row.maxUses) {
      var limit := invite.row.maxUses.value;
      UsageTextWithLimit(invite);
      PairReadsBack(used, limit);
    } else {
      UsageTextWithoutLimit(invite);
      SlashNotInNumber(used);
      SplitWithoutSeparator(IntToString(used), '/');
      ParseIntOfIntToString(used);
    }
  }

  /** Without a limit, the text is the count alone. */
  lemma UsageTextWithoutLimit(invite: Invite)
    requires !TruthyNum(invite.row.maxUses)
    ensures UsageText(invite) == IntToString(invite.row.usedCount)
  {
    assert IntToString(invite.row.usedCount) + "" == IntToString(invite.row.usedCount);
  }

  /** With a limit shown, the text is the count, '/', and the limit. */
  lemma UsageTextWithLimit(invite: Invite)
    requires TruthyNum(invite.row.maxUses)
    ensures UsageText(invite) == IntToString(invite.row.usedCount) + ['/'] + IntToString(invite.row.maxUses.value)
  {
  }

  /** Two numbers joined by '/' split into two pieces that read back as the numbers. */
  lemma PairReadsBack(a: int, b: int)
    ensures var pieces := Split(IntToString(a) + ['/'] + IntToString(b), '/');
      |pieces| == 2 && ParseInt(pieces[0]) == Some(a) && ParseInt(pieces[1]) == Some(b)
  {
    SplitAtSlash(a, b);
    ParseIntOfIntToString(a);
    ParseIntOfIntToString(b);
  }

  /** Milliseconds in a day. */
  const DayMs := 86_400_000

  /**
   * The options `handleCreateInvite` passes to the API wrapper. `maxUses` is present when the field is non-empty and
   * then holds `parseInt` of it (None inside: NaN); `expiresAt` is present unless the choice is
   * "never".
   */
  datatype CreateOptions = CreateOptions(maxUses: Option<Option<int>>, expiresAt: Option<int>)

  /**
   * The option building of `handleCreateInvite` from the max-uses field and the expiry choice
   * (a number of days or "never"). None: an expiry choice that is not a number gives an invalid
   * date, `toISOString` throws, and the API wrapper is not called.
   */
  function BuildOptions(maxUsesField: string, expiresIn: string, now: int): (r: Option<CreateOptions>)
    ensures r.None? <==> expiresIn != "never" && ParseInt(expiresIn).None?
    ensures r.Some? ==> (r.value.maxUses.Some? <==> maxUsesField != "")
    ensures r.Some? && r.value.maxUses.Some? ==> r.value.maxUses.value == ParseInt(maxUsesField)
    ensures r.Some? ==> (r.value.expiresAt.Some? <==> expiresIn != "never")
    ensures r.Some? && r.value.expiresAt.Some? ==>
      r.value.expiresAt.value == now + ParseInt(expiresIn).value * DayMs
  {
    var expiresAt := if expiresIn == "never" then None else Some(ParseInt(expiresIn));
    if expiresAt.Some? && expiresAt.value.None? then None
    else
      Some(CreateOptions(
        if maxUsesField != "" then Some(ParseInt(maxUsesField)) else None,
        if expiresAt.Some? then Some(now + expiresAt.value.value * DayMs) else None))
  }

  /** The form's reset values ("" and "7") ask for an unlimited invite expiring in seven days. */
  lemma DefaultOptions(now: int)
    ensures BuildOptions("", "7", now) == Some(CreateOptions(None, Some(now + 7 * DayMs)))
  {
    ParseIntOfIntToString(7);
    assert IntToString(7) == "7";
  }
}
