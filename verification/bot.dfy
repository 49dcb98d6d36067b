/** `update_xp`: what the bot does with one message from a member — find or
    create their record, apply the levelling rule, announce a level-up, and
    write the record back. The three record-store round trips are inputs. */
module Bot {
  import opened Values
  import opened Results
  import opened Members
  import opened Levelling
  import opened Database

  /** The "Level Up!" message posted to the channel of the triggering message:
      it mentions the author and names the new level number. */
  datatype Announcement = Announcement(title: string, mention: string, level: int)

  /** How the call ended. */
  datatype Report =
      /** The record was written back. */
    | Quiet
      /** The write failed: "Failed to update user!" is logged. */
    | UpdateFailed
      /** The lookup failed: "Failed to get user! Error: ..." is logged. */
    | GetFailed(error: Failure)
      /** The lookup threw; `update_xp`'s own promise is rejected. */
    | Rejected(error: Failure)

  /** Everything one call does: the create request (if a row was created),
      the update request (if any), the announcement (if any), and the report. */
  datatype XpOutcome = XpOutcome(
    createBody: Option<Value>,
    patchBody: Option<Value>,
    announcement: Option<Announcement>,
    report: Report)

  function UpdateXp(authorId: string, listed: Fetched, created: Fetched, patched: Fetched): (o: XpOutcome)
    ensures o.createBody == GetMember(authorId, listed, created).createBody
    ensures GetMember(authorId, listed, created).result.IsErr() ==>
              && o.patchBody.None? && o.announcement.None?
              && var e := GetMember(authorId, listed, created).result.UnwrapErr();
                 o.report == if e.Uncaught? then Rejected(e) else GetFailed(e)
    ensures GetMember(authorId, listed, created).result.IsOk() ==>
              var step := GainXp(GetMember(authorId, listed, created).result.Unwrap());
              && o.patchBody == Some(UpdateMember(step.user, patched).body)
              && (o.announcement.Some? <==> step.levelledUp)
              && (o.announcement.Some? ==> o.announcement.value == Announcement("Level Up!", authorId, step.user.level))
              && (o.report == UpdateFailed <==> patched.IsErr())
              && (o.report == Quiet <==> patched.IsOk())
  {
    var lookup := GetMember(authorId, listed, created);
    match lookup.result
    case Ok(user) =>
      // The `and_then` callback: one more xp, maybe a level-up and its
      // announcement; then the record is written back, level-up or not.
      var step := GainXp(user);
      var announcement :=
        if step.levelledUp then Some(Announcement("Level Up!", authorId, step.user.level)) else None;
      var update := UpdateMember(step.user, patched);
      XpOutcome(lookup.createBody, Some(update.body), announcement,
                if update.result.IsErr() then UpdateFailed else Quiet)
    case Err(e) =>
      XpOutcome(lookup.createBody, None, None, if e.Uncaught? then Rejected(e) else GetFailed(e))
  }

  /** The row written back is the author's own record after the levelling
      rule: same row id and Discord id as the looked-up record, one more xp
      unless it levelled up, and a level that never goes down. */
  lemma WrittenRecordIsAuthors(authorId: string, listed: Fetched, created: Fetched, patched: Fetched)
    ensures var o := UpdateXp(authorId, listed, created, patched);
            var before := GetMember(authorId, listed, created).result;
            o.patchBody.Some? ==>
            var body := o.patchBody.value;
            && before.IsOk()
            && body.Arr? && |body.items| == 1
            && DecodeRow(body.items[0]).IsOk()
            && var after := DecodeRow(body.items[0]).Unwrap();
               && after.discordUserId == authorId
               && after.id == before.Unwrap().id
               && after.level >= before.Unwrap().level
               && (after.level == before.Unwrap().level ==> after.xp == before.Unwrap().xp + 1)
  {
  }

  /** A first message from an unknown user against an empty table: a row is
      created with xp 0 and level 0, the record takes the assigned `Id`, and
      the record written back has xp 1 at level New, with no announcement. */
  lemma FirstMessageFromNewUser(authorId: string, id: int)
    ensures var listed: Fetched := Ok(Obj(map["list" := Arr([])]));
            var created: Fetched := Ok(Arr([Obj(map["Id" := Num(id)])]));
            var o := UpdateXp(authorId, listed, created, Ok(Nothing));
            && GetMember(authorId, listed, created).result == Ok(DiscordUser(id, authorId, 0, New.Number()))
            && o.createBody == Some(CreateBody(authorId))
            && o.patchBody == Some(Arr([EncodeUser(DiscordUser(id, authorId, 1, New.Number()))]))
            && o.announcement.None?
            && o.report == Quiet
  {
  }

  /** A New member with xp 2 is promoted by their next message: the record
      is written back as Regular with xp 0 and the level-up is announced. */
  lemma ThirdMessagePromotes(authorId: string, id: int, patched: Fetched)
    ensures var listed: Fetched := Ok(Obj(map["list" := Arr([EncodeUser(DiscordUser(id, authorId, 2, New.Number()))])]));
            var o := UpdateXp(authorId, listed, Err(Message("unused")), patched);
            && o.createBody.None?
            && o.patchBody == Some(Arr([EncodeUser(DiscordUser(id, authorId, 0, Regular.Number()))]))
            && o.announcement == Some(Announcement("Level Up!", authorId, Regular.Number()))
  {
    var u := DiscordUser(id, authorId, 2, New.Number());
    DecodeEncode(u);
    ListingRoundTrip([u]);
    assert seq(1, i requires 0 <= i < 1 => EncodeUser([u][i])) == [EncodeUser(u)];
  }
}
