/** The record-store client: listing the member table, finding or creating
    one member's row, and writing a row back. Every HTTP round trip is an
    input here: the outcome its `fetch_json` call produced. */
module Database {
  import opened Values
  import opened Results
  import opened Members

  /** Why a call failed. The source's errors are strings; the variants keep
      the parts a caller can act on (which field, which response). */
  datatype Failure =
      /** A plain message: a fetch failure passed through, or a fixed text. */
    | Message(text: string)
      /** "No records found in JSON response." */
    | NoRecordList(response: Value)
      /** "Record is missing field '<field>'!" */
    | MissingField(field: string, record: Value)
      /** The caught exception of a row that is `null`. */
    | ConversionFailed(record: Value)
      /** "No ID found in JSON response." */
    | NoIdFound(response: Value)
      /** A present column whose JSON kind is not the one the row shape
          declares (see README, Left out). */
    | WrongKind(record: Value)
      /** A TypeError thrown outside any `try`: the async call's promise is
          rejected instead of resolving to a Result. */
    | Uncaught(culprit: Value)

  /** What one `fetch_json` call produced: a parsed body, or a failure whose
      text it built itself. It catches every exception it meets, so its
      failures are always plain messages (fetch.ts:12-34). */
  type Fetched = f: Result<Payload, Failure> | f.Err? ==> f.error.Message? witness Err(Message(""))

  /** The columns every listed row must carry, in the order they are checked. */
  const RequiredFields: seq<string> := ["Id", "discord_user_id", "xp", "level"]

  /** The row a member record is sent as. */
  function EncodeUser(u: DiscordUser): Value {
    Obj(map["Id" := Num(u.id), "discord_user_id" := Str(u.discordUserId),
            "xp" := Num(u.xp), "level" := Num(u.level)])
  }

  /** The first of `fields` the row lacks, by index. */
  function FirstMissing(row: Value, fields: seq<string>): (i: Option<nat>)
    requires !row.Null?
    ensures i.Some? ==> i.value < |fields| && Field(row, fields[i.value]).None?
    ensures i.Some? ==> forall j :: 0 <= j < i.value ==> Field(row, fields[j]).Some?
    ensures i.None? <==> forall j :: 0 <= j < |fields| ==> Field(row, fields[j]).Some?
    decreases |fields|
  {
    if |fields| == 0 then None
    else if Field(row, fields[0]).None? then Some(0)
    else match FirstMissing(row, fields[1..])
      case Some(k) => Some(k + 1)
      case None => None
  }

  /** The row carries every required column, each of its declared kind. */
  predicate WellFormedRow(row: Value) {
    && row.Obj?
    && Field(row, "Id").Some? && Field(row, "Id").value.Num?
    && Field(row, "discord_user_id").Some? && Field(row, "discord_user_id").value.Str?
    && Field(row, "xp").Some? && Field(row, "xp").value.Num?
    && Field(row, "level").Some? && Field(row, "level").value.Num?
  }

  /** The check and copy applied to one listed row (database.ts:88-105). */
  function DecodeRow(row: Value): (r: Result<DiscordUser, Failure>)
    ensures r.IsOk() <==> WellFormedRow(row)
    ensures r.IsOk() ==> EncodeUser(r.Unwrap()) == Obj(map f | f in RequiredFields :: row.fields[f])
    ensures row.Null? ==> r == Err(ConversionFailed(row))
    ensures !row.Null? && FirstMissing(row, RequiredFields).Some?
            ==> r == Err(MissingField(RequiredFields[FirstMissing(row, RequiredFields).value], row))
    ensures r.IsErr() && r.UnwrapErr().MissingField? ==> !row.Null? && FirstMissing(row, RequiredFields).Some?
  {
    if row.Null? then Err(ConversionFailed(row))
    else match FirstMissing(row, RequiredFields)
      case Some(i) => Err(MissingField(RequiredFields[i], row))
      case None =>
        assert Field(row, RequiredFields[0]).Some? && Field(row, RequiredFields[1]).Some?;
        assert Field(row, RequiredFields[2]).Some? && Field(row, RequiredFields[3]).Some?;
        var id, discordUserId, xp, level :=
          row.fields["Id"], row.fields["discord_user_id"], row.fields["xp"], row.fields["level"];
        if id.Num? && discordUserId.Str? && xp.Num? && level.Num? then
          var u := DiscordUser(id.n, discordUserId.s, xp.n, level.n);
          assert EncodeUser(u).fields == map f | f in RequiredFields :: row.fields[f];
          Ok(u)
        else Err(WrongKind(row))
  }

  /** A record written as a row is read back as the same record. */
  lemma DecodeEncode(u: DiscordUser)
    ensures DecodeRow(EncodeUser(u)) == Ok(u)
    ensures EncodeUser(u).fields.Keys == set f | f in RequiredFields
  {
    assert FirstMissing(EncodeUser(u), RequiredFields).None?;
  }

  /** The first row index at which decoding fails, all earlier rows passing. */
  ghost predicate FirstBadRow(rows: seq<Value>, i: int) {
    && 0 <= i < |rows|
    && DecodeRow(rows[i]).IsErr()
    && forall j :: 0 <= j < i ==> DecodeRow(rows[j]).IsOk()
  }

  /** The loop over the listed rows: all of them convert, in order, or the
      first failing row's error is the result (database.ts:87-108). */
  function ConvertRows(rows: seq<Value>): (r: Result<seq<DiscordUser>, Failure>)
    ensures r.IsOk() <==> forall i :: 0 <= i < |rows| ==> DecodeRow(rows[i]).IsOk()
    ensures r.IsOk() ==> |r.Unwrap()| == |rows|
    ensures r.IsOk() ==> forall i :: 0 <= i < |rows| ==> DecodeRow(rows[i]) == Ok(r.Unwrap()[i])
    ensures r.IsErr() ==> exists i :: FirstBadRow(rows, i) && DecodeRow(rows[i]) == Err(r.UnwrapErr())
    decreases |rows|
  {
    if |rows| == 0 then Ok([])
    else match DecodeRow(rows[0])
      case Err(e) =>
        assert FirstBadRow(rows, 0);
        Err(e)
      case Ok(u) =>
        match ConvertRows(rows[1..])
        case Err(e) =>
          ghost var k :| FirstBadRow(rows[1..], k) && DecodeRow(rows[1..][k]) == Err(e);
          assert FirstBadRow(rows, k + 1);
          Err(e)
        case Ok(us) =>
          assert forall i :: 1 <= i < |rows| ==> rows[i] == rows[1..][i - 1];
          Ok([u] + us)
  }

  /** The elements `for (const record of list)` visits, when `list` can be
      iterated: an array's items, or a string's characters. */
  function Iterated(list: Value): Option<seq<Value>> {
    match list
    case Arr(items) => Some(items)
    case Str(s) => Some(seq(|s|, i requires 0 <= i < |s| => Str([s[i]])))
    case _ => None
  }

  /** The `list` wrapper of a listing response, when present and truthy. */
  function RecordList(json: Payload): (r: Result<Payload, Failure>)
    ensures r.IsOk() <==> Field(json, "list").Some? && Truthy(Field(json, "list").value)
    ensures r.IsOk() ==> Field(json, "list").Some? && Field(json, "list").value == r.Unwrap()
    ensures r.IsErr() ==> r.UnwrapErr() == NoRecordList(json)
  {
    match Field(json, "list")
    case Some(list) =>
      if Truthy(list) then var truthy: Payload := list; Ok(truthy) else Err(NoRecordList(json))
    case None => Err(NoRecordList(json))
  }

  /** Converting the `list` value: iterate it, or throw when it cannot be
      iterated (outside the per-row `try`). */
  function ToUsers(list: Payload): (r: Result<seq<DiscordUser>, Failure>)
    ensures Iterated(list).None? ==> r == Err(Uncaught(list))
    ensures Iterated(list).Some? ==> r == ConvertRows(Iterated(list).value)
    ensures r.IsOk() <==>
              Iterated(list).Some? && forall i :: 0 <= i < |Iterated(list).value| ==> DecodeRow(Iterated(list).value[i]).IsOk()
  {
    match Iterated(list)
    case Some(rows) => ConvertRows(rows)
    case None => Err(Uncaught(list))
  }

  /** `get_members`: the listing fetch, then the `list` wrapper, then every
      row, all or nothing. */
  function GetMembers(listed: Fetched): (r: Result<seq<DiscordUser>, Failure>)
    ensures listed.IsErr() ==> r == Err(listed.UnwrapErr())
    ensures listed.IsOk() && RecordList(listed.Unwrap()).IsErr()
            ==> r == Err(NoRecordList(listed.Unwrap()))
    ensures r.IsOk() <==>
              && listed.IsOk() && RecordList(listed.Unwrap()).IsOk()
              && Iterated(RecordList(listed.Unwrap()).Unwrap()).Some?
              && var rows := Iterated(RecordList(listed.Unwrap()).Unwrap()).value;
                 forall i :: 0 <= i < |rows| ==> DecodeRow(rows[i]).IsOk()
    ensures r.IsOk() ==>
              var rows := Iterated(RecordList(listed.Unwrap()).Unwrap()).value;
              && |r.Unwrap()| == |rows|
              && forall i :: 0 <= i < |rows| ==> DecodeRow(rows[i]) == Ok(r.Unwrap()[i])
    ensures listed.IsOk() && RecordList(listed.Unwrap()).IsOk()
            && Iterated(RecordList(listed.Unwrap()).Unwrap()).None?
            ==> r == Err(Uncaught(RecordList(listed.Unwrap()).Unwrap()))
    ensures r.IsErr() && listed.IsOk() && RecordList(listed.Unwrap()).IsOk()
            && Iterated(RecordList(listed.Unwrap()).Unwrap()).Some? ==>
              var rows := Iterated(RecordList(listed.Unwrap()).Unwrap()).value;
              exists i :: FirstBadRow(rows, i) && DecodeRow(rows[i]) == Err(r.UnwrapErr())
  {
    listed.AndThen(RecordList).AndThen(ToUsers)
  }

  /** A table whose rows are the encodings of `users` lists back as exactly
      `users`, in order. */
  lemma ListingRoundTrip(users: seq<DiscordUser>)
    ensures GetMembers(Ok(Obj(map["list" := Arr(seq(|users|, i requires 0 <= i < |users| => EncodeUser(users[i])))])))
         == Ok(users)
  {
    var rows := seq(|users|, i requires 0 <= i < |users| => EncodeUser(users[i]));
    forall i | 0 <= i < |rows| ensures DecodeRow(rows[i]) == Ok(users[i]) {
      DecodeEncode(users[i]);
    }
    var listed: Fetched := Ok(Obj(map["list" := Arr(rows)]));
    assert RecordList(listed.Unwrap()).IsOk() && RecordList(listed.Unwrap()).Unwrap() == Arr(rows);
    assert Iterated(Arr(rows)) == Some(rows);
    var r := GetMembers(listed);
    assert r.IsOk();
    assert |r.Unwrap()| == |users|;
    assert forall i :: 0 <= i < |users| ==> DecodeRow(rows[i]) == Ok(r.Unwrap()[i]);
    assert r.Unwrap() == users;
  }

  /** A listing of one complete row yields exactly that record; a listing
      without the `list` wrapper is an error. */
  lemma ListingExamples()
    ensures GetMembers(Ok(Obj(map["list" := Arr([Obj(map["Id" := Num(1), "discord_user_id" := Str("u1"),
                                                        "xp" := Num(0), "level" := Num(0)])])])))
         == Ok([DiscordUser(1, "u1", 0, 0)])
    ensures GetMembers(Ok(Obj(map["pageInfo" := Obj(map[])])))
         == Err(NoRecordList(Obj(map["pageInfo" := Obj(map[])])))
  {
    var users := [DiscordUser(1, "u1", 0, 0)];
    ListingRoundTrip(users);
    assert seq(|users|, i requires 0 <= i < |users| => EncodeUser(users[i])) == [EncodeUser(users[0])];
  }

  /** The index of the first record whose Discord id equals `discordId`
      exactly (database.ts:132-136). */
  function FindByDiscordId(users: seq<DiscordUser>, discordId: string): (k: Option<nat>)
    ensures k.Some? ==> k.value < |users| && users[k.value].discordUserId == discordId
    ensures k.Some? ==> forall j :: 0 <= j < k.value ==> users[j].discordUserId != discordId
    ensures k.None? <==> forall j :: 0 <= j < |users| ==> users[j].discordUserId != discordId
    decreases |users|
  {
    if |users| == 0 then None
    else if users[0].discordUserId == discordId then Some(0)
    else match FindByDiscordId(users[1..], discordId)
      case Some(j) => Some(j + 1)
      case None => None
  }

  /** The body of the create request: one row with the Discord id, xp 0 and
      level 0. */
  function CreateBody(discordId: string): Value {
    Arr([Obj(map["discord_user_id" := Str(discordId), "xp" := Num(0), "level" := Num(0)])])
  }

  /** Reading the assigned `Id` out of a create response (database.ts:160-170). */
  function ParseCreated(json: Payload, discordId: string): (r: Result<DiscordUser, Failure>)
    ensures r.IsOk() ==>
              && First(json).Some? && !First(json).value.Null?
              && Field(First(json).value, "Id") == Some(Num(r.Unwrap().id))
              && r.Unwrap() == DiscordUser(r.Unwrap().id, discordId, 0, New.Number())
    ensures r == Err(NoIdFound(json)) <==>
              || First(json).None?
              || (!First(json).value.Null? && Field(First(json).value, "Id").None?)
    ensures First(json) == Some(Null) ==> r == Err(Uncaught(Null))
    ensures && First(json).Some? && !First(json).value.Null?
            && Field(First(json).value, "Id").Some? && Field(First(json).value, "Id").value.Num?
            ==> r == Ok(DiscordUser(Field(First(json).value, "Id").value.n, discordId, 0, New.Number()))
  {
    match First(json)
    case None => Err(NoIdFound(json))
    case Some(first) =>
      // `json[0].Id` on a `null` first element throws outside any `try`.
      if first.Null? then Err(Uncaught(Null))
      else match Field(first, "Id")
        case None => Err(NoIdFound(json))
        case Some(Num(id)) => Ok(DiscordUser(id, discordId, 0, New.Number()))
        case Some(_) => Err(WrongKind(first))
  }

  /** What `get_member` returned, and the create request it issued, if any. */
  datatype Lookup = Lookup(result: Result<DiscordUser, Failure>, createBody: Option<Value>)

  /** `get_member`: the first listed record with the given Discord id, else a
      new row created for it. `listed` is the listing fetch's outcome and
      `created` the create fetch's (consulted only when a row is created). */
  function GetMember(discordId: string, listed: Fetched, created: Fetched): (l: Lookup)
    ensures l.result.IsOk() ==> l.result.Unwrap().discordUserId == discordId
    ensures l.createBody.Some? <==>
              GetMembers(listed).IsOk() && FindByDiscordId(GetMembers(listed).Unwrap(), discordId).None?
    ensures l.createBody.Some? ==> l.createBody.value == CreateBody(discordId)
    ensures GetMembers(listed).IsErr() ==>
              l.result == Err(if GetMembers(listed).UnwrapErr().Uncaught? then GetMembers(listed).UnwrapErr()
                              else Message("Failed to get members."))
    ensures GetMembers(listed).IsOk() && FindByDiscordId(GetMembers(listed).Unwrap(), discordId).Some?
            ==> l.result == Ok(GetMembers(listed).Unwrap()[FindByDiscordId(GetMembers(listed).Unwrap(), discordId).value])
    ensures l.createBody.Some? ==>
              (created.IsErr() ==> l.result == Err(created.UnwrapErr()))
              && (created.IsOk() ==> l.result == ParseCreated(created.Unwrap(), discordId))
  {
    match GetMembers(listed)
    case Err(e) =>
      // A rejected listing rejects `get_member` too; any other Err is
      // replaced by a fixed message.
      if e.Uncaught? then Lookup(Err(e), None)
      else Lookup(Err(Message("Failed to get members.")), None)
    case Ok(users) =>
      match FindByDiscordId(users, discordId)
      case Some(k) => Lookup(Ok(users[k]), None)
      case None =>
        Lookup(created.AndThen(json => ParseCreated(json, discordId)), Some(CreateBody(discordId)))
  }

  /** What `update_member` returned, and the body of the PATCH it issued. */
  datatype Update = Update(result: Result<Payload, Failure>, body: Value)

  /** `update_member`: PATCH a one-row array holding the record; empty `Ok()`
      exactly when that fetch succeeded. */
  function UpdateMember(u: DiscordUser, patched: Fetched): (o: Update)
    ensures o.body.Arr? && |o.body.items| == 1 && DecodeRow(o.body.items[0]) == Ok(u)
    ensures o.body.items[0].Obj? && o.body.items[0].fields.Keys == set f | f in RequiredFields
    ensures o.result.IsOk() <==> patched.IsOk()
    ensures o.result.IsOk() ==> o.result.Unwrap() == Nothing
    ensures o.result.IsErr() ==> o.result.UnwrapErr() == Message("Failed to update member record.")
  {
    DecodeEncode(u);
    var body := Arr([EncodeUser(u)]);
    if patched.IsErr() then Update(Err(Message("Failed to update member record.")), body)
    // `Ok()`: the absent payload is stored as the `Nothing` marker.
    else Update(Ok(Stored(None)), body)
  }
}
