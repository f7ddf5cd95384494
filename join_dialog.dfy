/**
 * The invite tab of `JoinServerDialog`: the blank-input guard, the extraction of the code from
 * a pasted link, and what the dialog does once the API call has succeeded or failed (that outcome is a
 * parameter).
 */
module JoinDialog {
  import opened Wrappers
  import opened Text
  import opened EdgeRows
  import EdgeQueries

  /**
   * The invite code sent for an input: the trimmed input, or, when it contains '/', the part
   * after its last '/' (`split('/').pop() || ''`).
   */
  function ExtractCode(input: string): (r: string)
    ensures '/' !in r
    ensures '/' !in Trim(input) ==> r == Trim(input)
    ensures '/' in Trim(input) ==> r == Trim(input)[LastIndexOf(Trim(input), '/') + 1..]
  {
    PopPiece(Trim(input), '/')
  }

  /** A link whose path ends in the code yields the code, whatever comes before the last '/'. */
  lemma ExtractFromLink(prefix: string, code: string)
    requires '/' !in code && code != [] && !IsSpace(code[|code| - 1])
    requires prefix != [] ==> !IsSpace(prefix[0])
    ensures ExtractCode(prefix + ['/'] + code) == code
  {
    var s := prefix + ['/'] + code;
    assert s[0] == (if prefix != [] then prefix[0] else '/');
    assert s[|s| - 1] == code[|code| - 1];
    TrimUntouched(s);
    SplitWithoutSeparator(code, '/');
    SplitAppend(prefix, code, '/');
  }

  /** The full link the dialog suggests gives its code. */
  lemma SuggestedLink(link: string)
    requires link == "https://discord.gg/ABC123"
    ensures ExtractCode(link) == "ABC123"
  {
    var host, code := link[..18], link[19..];
    assert link == host + ['/'] + code;
    ExtractFromLink(host, code);
  }

  /** The link without a scheme gives the same code. */
  lemma SuggestedShortLink(link: string)
    requires link == "discord.gg/ABC123"
    ensures ExtractCode(link) == "ABC123"
  {
    var host, code := link[..10], link[11..];
    assert link == host + ['/'] + code;
    ExtractFromLink(host, code);
  }

  /** A bare code is kept as it is. */
  lemma SuggestedCode(code: string)
    requires code == "ABC123"
    ensures ExtractCode(code) == "ABC123"
  {
    TrimUntouched(code);
  }

  /** An input whose trimmed text ends in '/' yields the empty code. */
  lemma TrailingSlashGivesEmpty(input: string)
    requires Trim(input) != [] && Trim(input)[|Trim(input)| - 1] == '/'
    ensures ExtractCode(input) == ""
  {
    var t := Trim(input);
    var k := LastIndexOf(t, '/');
    if k < |t| - 1 {
      assert false;
    }
  }

  /** The dialog's state: open or not, the input, whether a join is running. */
  datatype Dialog = Dialog(open: bool, inviteCode: string, joining: bool)

  /** The join button is disabled while a join runs or when the input is blank. */
  predicate JoinDisabled(d: Dialog) {
    d.joining || IsBlank(d.inviteCode)
  }

  /**
   * `handleJoinByInvite` up to the API call: a blank input makes no call (None, after an
   * error toast); otherwise the call gets the extracted code and the dialog is joining.
   */
  function Submit(d: Dialog): (r: (Dialog, Option<string>))
    ensures r.1.None? <==> IsBlank(d.inviteCode)
    ensures r.1.None? ==> r.0 == d
    ensures r.1.Some? ==> r.1.value == ExtractCode(d.inviteCode) && r.0 == d.(joining := true)
  {
    if IsBlank(d.inviteCode) then (d, None)
    else (d.(joining := true), Some(ExtractCode(d.inviteCode)))
  }

  /**
   * The rest of the handler once the API call has succeeded or failed: on success the input is cleared,
   * the dialog closes and the parent's `onServerJoined` runs (the boolean); on failure only
   * the joining flag drops, so the input stays for another try.
   */
  function Finish(d: Dialog, succeeded: bool): (r: (Dialog, bool))
    ensures !r.0.joining
    ensures r.1 <==> succeeded
    ensures succeeded ==> r.0.inviteCode == "" && !r.0.open
    ensures !succeeded ==> r.0 == d.(joining := false)
  {
    if succeeded then (Dialog(false, "", false), true) else (d.(joining := false), false)
  }

  /**
   * An input such as "discord.gg/" is not blank, so the dialog goes on to its API call, but the
   * code it would pass on is empty, and join-by-invite refuses an empty code with 400 before
   * looking anything up.
   */
  lemma TrailingSlashRefusedByServer(d: Dialog, invites: seq<InviteRow>, servers: seq<ServerRow>,
                                     members: seq<MemberRow>, userId: Id, now: int)
    requires Trim(d.inviteCode) != [] && Trim(d.inviteCode)[|Trim(d.inviteCode)| - 1] == '/'
    ensures Submit(d).1 == Some("")
    ensures EdgeQueries.JoinByInviteCheck(invites, servers, members, userId, Submit(d).1, now)
      == EdgeQueries.Refuse(Fail(400, "Invite code required"))
  {
    TrailingSlashGivesEmpty(d.inviteCode);
  }
}
