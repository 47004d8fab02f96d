/** Group details, the database behind them, and the stored text of a cache entry. */
module GroupDetails {
  import opened Common

  type GroupId = string
  type UserId = string

  datatype Profile = Profile(name: string, email: string)

  datatype Member = Member(id: UserId, name: string, email: string)

  datatype Detail = Detail(id: GroupId, name: string, createdById: UserId, createdAt: int, updatedAt: int, members: seq<Member>)

  datatype Row = Row(name: string, createdById: UserId, createdAt: int, updatedAt: int)

  /** memberships holds the unique (group, user) pairs. */
  datatype Db = Db(groups: map<GroupId, Row>, memberships: set<(GroupId, UserId)>, users: map<UserId, Profile>)

  predicate IsMember(db: Db, groupId: GroupId, userId: UserId) { (groupId, userId) in db.memberships }

  function MembersOf(db: Db, groupId: GroupId): set<UserId> {
    set p <- db.memberships | p.0 == groupId :: p.1
  }

  function MemberIds(members: seq<Member>): set<UserId> { set m <- members :: m.id }

  predicate DistinctMembers(members: seq<Member>) {
    forall i, j :: 0 <= i < j < |members| ==> members[i].id != members[j].id
  }

  /** The detail's own columns and its member ids are the database's; names and emails are not looked at. */
  predicate Agrees(db: Db, groupId: GroupId, d: Detail) {
    && groupId in db.groups
    && d.id == groupId
    && Row(d.name, d.createdById, d.createdAt, d.updatedAt) == db.groups[groupId]
    && DistinctMembers(d.members)
    && MemberIds(d.members) == MembersOf(db, groupId)
  }

  /** A possible answer of the group query: members in some order, each with its user row. */
  predicate Shows(db: Db, groupId: GroupId, d: Detail) {
    && Agrees(db, groupId, d)
    && forall m <- d.members :: m.id in db.users && db.users[m.id] == Profile(m.name, m.email)
  }

  /******* Stored text *******/

  datatype Json =
    | Null
    | Bool(b: bool)
    | Num(n: real)
    | Str(s: string)
    | Arr(items: seq<Json>)
    | Obj(fields: map<string, Json>)

  /** The platform's date text: toISOString and Date parsing. */
  datatype DateText = DateText(iso: int -> string, parse: string -> Option<int>)

  ghost predicate Faithful(dates: DateText) {
    forall ms :: dates.parse(dates.iso(ms)) == Some(ms)
  }

  function SerializeMember(m: Member): Json {
    Obj(map["id" := Str(m.id), "name" := Str(m.name), "email" := Str(m.email)])
  }

  function SerializeMembers(members: seq<Member>): seq<Json> {
    seq(|members|, i requires 0 <= i < |members| => SerializeMember(members[i]))
  }

  function Serialize(dates: DateText, d: Detail): Json {
    Obj(map[
      "id" := Str(d.id),
      "name" := Str(d.name),
      "createdById" := Str(d.createdById),
      "createdAt" := Str(dates.iso(d.createdAt)),
      "updatedAt" := Str(dates.iso(d.updatedAt)),
      "members" := Arr(SerializeMembers(d.members))])
  }

  function Field(j: Json, name: string): Option<Json> {
    if j.Obj? && name in j.fields then Some(j.fields[name]) else None
  }

  function TextField(j: Json, name: string): Option<string> {
    match Field(j, name)
    case Some(Str(s)) => Some(s)
    case _ => None
  }

  function ToDate(dates: DateText, value: Option<string>): Option<int> {
    if value.None? then None else dates.parse(value.value)
  }

  function ReadMember(j: Json): Option<Member> {
    var id, name, email := TextField(j, "id"), TextField(j, "name"), TextField(j, "email");
    if id.None? || name.None? || email.None? then None else Some(Member(id.value, name.value, email.value))
  }

  function ReadMembers(items: seq<Json>): Option<seq<Member>> {
    if items == [] then Some([])
    else
      var first, rest := ReadMember(items[0]), ReadMembers(items[1..]);
      if first.None? || rest.None? then None else Some([first.value] + rest.value)
  }

  /** `raw` is None when the stored text is not JSON. */
  function Deserialize(dates: DateText, raw: Option<Json>, groupId: GroupId): Option<Detail> {
    if raw.None? || !raw.value.Obj? || Field(raw.value, "id") != Some(Str(groupId)) then None
    else
      var j := raw.value;
      var name, owner, members := TextField(j, "name"), TextField(j, "createdById"), Field(j, "members");
      if name.None? || owner.None? || members.None? || !members.value.Arr? then None
      else
        var createdAt, updatedAt := ToDate(dates, TextField(j, "createdAt")), ToDate(dates, TextField(j, "updatedAt"));
        if createdAt.None? || updatedAt.None? then None
        else
          match ReadMembers(members.value.items)
          case None => None
          case Some(list) => Some(Detail(groupId, name.value, owner.value, createdAt.value, updatedAt.value, list))
  }

  lemma {:induction false} ReadMembersInverts(members: seq<Member>)
    ensures ReadMembers(SerializeMembers(members)) == Some(members)
    decreases |members|
  {
    if members != [] {
      var items, rest := SerializeMembers(members), members[1..];
      assert items[1..] == SerializeMembers(rest);
      ReadMembersInverts(rest);
      assert items[0] == SerializeMember(members[0]);
      assert members == [members[0]] + rest;
    }
  }

  /** Reading back what was stored gives it back, for its own group only. */
  lemma DeserializeInvertsSerialize(dates: DateText, d: Detail, groupId: GroupId)
    requires Faithful(dates)
    ensures Deserialize(dates, Some(Serialize(dates, d)), groupId) == if groupId == d.id then Some(d) else None
  {
    ReadMembersInverts(d.members);
    var j := Serialize(dates, d);
    assert TextField(j, "createdAt") == Some(dates.iso(d.createdAt));
    assert TextField(j, "updatedAt") == Some(dates.iso(d.updatedAt));
  }

  lemma {:induction false} ReadMembersAgain(items: seq<Json>)
    requires ReadMembers(items).Some?
    ensures |ReadMembers(items).value| == |items|
    ensures forall i :: 0 <= i < |items| ==> ReadMember(items[i]) == Some(ReadMembers(items).value[i])
    decreases |items|
  {
    if items != [] {
      ReadMembersAgain(items[1..]);
    }
  }

  /** The stored object has this text under the name. */
  predicate HasText(j: Json, name: string, text: string) { j.Obj? && name in j.fields && j.fields[name] == Str(text) }

  /** Whatever is stored, a revived entry is the requested group's, with every value from the field of its name and exactly
      the stored members. */
  lemma RevivedEntriesAreComplete(dates: DateText, raw: Option<Json>, groupId: GroupId)
    requires Deserialize(dates, raw, groupId).Some?
    ensures
      var d := Deserialize(dates, raw, groupId).value;
      && d.id == groupId
      && raw.Some? && HasText(raw.value, "id", d.id) && HasText(raw.value, "name", d.name) && HasText(raw.value, "createdById", d.createdById)
      && (exists text :: HasText(raw.value, "createdAt", text) && dates.parse(text) == Some(d.createdAt))
      && (exists text :: HasText(raw.value, "updatedAt", text) && dates.parse(text) == Some(d.updatedAt))
      && "members" in raw.value.fields && raw.value.fields["members"].Arr?
      && var items := raw.value.fields["members"].items;
      && |d.members| == |items|
      && (forall i :: 0 <= i < |items| ==>
            HasText(items[i], "id", d.members[i].id) && HasText(items[i], "name", d.members[i].name) && HasText(items[i], "email", d.members[i].email))
  {
    var j := raw.value;
    ReadMembersAgain(j.fields["members"].items);
    assert HasText(j, "createdAt", TextField(j, "createdAt").value) && HasText(j, "updatedAt", TextField(j, "updatedAt").value);
  }
}
