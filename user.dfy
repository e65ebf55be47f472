/** The user record (Domain/Models/User.py). */
module UserModel {
  import opened Values

  datatype User = User(
    id: Value, reputation: Value, creationDate: Value, displayName: Value, lastAccessDate: Value,
    websiteUrl: Value, location: Value, aboutMe: Value, views: Value, upVotes: Value,
    downVotes: Value, profileImageUrl: Value, emailHash: Value, accountId: Value)

  /**
   * `User(...)` with the declared defaults. `datetime.now()` is called once
   * for each falsy date argument; `clockAtCreation` and `clockAtLastAccess`
   * are what those two calls return.
   */
  function NewUser(clockAtCreation: DateTime, clockAtLastAccess: DateTime,
                   id: Value := NoneV, reputation: Value := Int(0), creationDate: Value := NoneV,
                   displayName: Value := Str(""), lastAccessDate: Value := NoneV, websiteUrl: Value := Str(""),
                   location: Value := Str(""), aboutMe: Value := Str(""), views: Value := Int(0),
                   upVotes: Value := Int(0), downVotes: Value := Int(0), profileImageUrl: Value := Str(""),
                   emailHash: Value := Str(""), accountId: Value := NoneV): (u: User)
    ensures Truthy(u.creationDate) && Truthy(u.lastAccessDate)
    ensures u.creationDate == (if Truthy(creationDate) then creationDate else Date(clockAtCreation))
    ensures u.lastAccessDate == (if Truthy(lastAccessDate) then lastAccessDate else Date(clockAtLastAccess))
    ensures u.id == id && u.reputation == reputation && u.displayName == displayName
    ensures u.websiteUrl == websiteUrl && u.location == location && u.aboutMe == aboutMe
    ensures u.views == views && u.upVotes == upVotes && u.downVotes == downVotes
    ensures u.profileImageUrl == profileImageUrl && u.emailHash == emailHash && u.accountId == accountId
  {
    User(id, reputation, Or(creationDate, Date(clockAtCreation)), displayName,
         Or(lastAccessDate, Date(clockAtLastAccess)), websiteUrl, location, aboutMe, views, upVotes,
         downVotes, profileImageUrl, emailHash, accountId)
  }

  /** The keys of `to_dict()`, in order. */
  const UserKeys: seq<string> := ["Id", "Reputation", "CreationDate", "DisplayName", "LastAccessDate",
    "WebsiteUrl", "Location", "AboutMe", "Views", "UpVotes", "DownVotes", "ProfileImageUrl",
    "EmailHash", "AccountId"]

  /** `to_dict()`; `iso` stands for `datetime.isoformat()`. */
  function UserToDict(u: User, iso: DateTime -> string): (d: Dict)
    ensures Keys(d) == UserKeys
  {
    [("Id", u.id), ("Reputation", u.reputation), ("CreationDate", SerializeDate(u.creationDate, iso)),
     ("DisplayName", u.displayName), ("LastAccessDate", SerializeDate(u.lastAccessDate, iso)),
     ("WebsiteUrl", u.websiteUrl), ("Location", u.location), ("AboutMe", u.aboutMe),
     ("Views", u.views), ("UpVotes", u.upVotes), ("DownVotes", u.downVotes),
     ("ProfileImageUrl", u.profileImageUrl), ("EmailHash", u.emailHash), ("AccountId", u.accountId)]
  }

  /** The 14 keys are 14 different names. */
  lemma UserKeysDistinct()
    ensures |UserKeys| == 14 && Distinct(UserKeys)
  {
  }

  /** Rebuilds a user from the keys `to_dict()` writes. */
  function UserFromDict(d: Dict): User {
    User(Field(d, "Id"), Field(d, "Reputation"), Field(d, "CreationDate"), Field(d, "DisplayName"),
         Field(d, "LastAccessDate"), Field(d, "WebsiteUrl"), Field(d, "Location"), Field(d, "AboutMe"),
         Field(d, "Views"), Field(d, "UpVotes"), Field(d, "DownVotes"), Field(d, "ProfileImageUrl"),
         Field(d, "EmailHash"), Field(d, "AccountId"))
  }

  /** `to_dict()` keeps every field, the two dates as returned by `serialize_date`. */
  lemma UserDictRoundTrip(u: User, iso: DateTime -> string)
    ensures UserFromDict(UserToDict(u, iso))
         == u.(creationDate := SerializeDate(u.creationDate, iso), lastAccessDate := SerializeDate(u.lastAccessDate, iso))
  {
    var d := UserToDict(u, iso);
    UserKeysDistinct();
    DistinctKeysOf(d, UserKeys);
    FieldAt(d, 0); FieldAt(d, 1); FieldAt(d, 2); FieldAt(d, 3); FieldAt(d, 4);
    FieldAt(d, 5); FieldAt(d, 6); FieldAt(d, 7); FieldAt(d, 8); FieldAt(d, 9);
    FieldAt(d, 10); FieldAt(d, 11); FieldAt(d, 12); FieldAt(d, 13);
  }

  /** A constructed user's dict has both dates set: each is the given truthy value, serialised, or the clock's isoformat text. */
  lemma NewUserDictDates(clockAtCreation: DateTime, clockAtLastAccess: DateTime, creationDate: Value,
                         lastAccessDate: Value, iso: DateTime -> string)
    ensures var d := UserToDict(NewUser(clockAtCreation, clockAtLastAccess, creationDate := creationDate,
                                        lastAccessDate := lastAccessDate), iso);
      Field(d, "CreationDate") != NoneV && Field(d, "LastAccessDate") != NoneV &&
      (!Truthy(creationDate) ==> Field(d, "CreationDate") == Str(iso(clockAtCreation))) &&
      (!Truthy(lastAccessDate) ==> Field(d, "LastAccessDate") == Str(iso(clockAtLastAccess)))
  {
    var u := NewUser(clockAtCreation, clockAtLastAccess, creationDate := creationDate, lastAccessDate := lastAccessDate);
    UserDictRoundTrip(u, iso);
  }

  /** `str(user)`; `dateText` stands for `str()` of a datetime. */
  function UserToString(u: User, dateText: DateTime -> string): (t: string)
    ensures "User(Id: " + ToText(u.id, dateText) <= t
    ensures var tail := ", Website: " + (ToText(u.websiteUrl, dateText) + ")");
      |tail| <= |t| && t[|t| - |tail|..] == tail
  {
    var id, website := ToText(u.id, dateText), ToText(u.websiteUrl, dateText);
    var displayName, reputation := ToText(u.displayName, dateText), ToText(u.reputation, dateText);
    var location, views := ToText(u.location, dateText), ToText(u.views, dateText);
    var upVotes, downVotes := ToText(u.upVotes, dateText), ToText(u.downVotes, dateText);
    UserTextEnds(id, displayName, reputation, location, views, upVotes, downVotes, website);
    UserText(id, displayName, reputation, location, views, upVotes, downVotes, website)
  }

  /** The text of `str(user)` for the eight shown values, in the order of the format string. */
  function UserText(id: string, displayName: string, reputation: string, location: string,
                    views: string, upVotes: string, downVotes: string, website: string): string
  {
    "User(Id: " + (id + (", DisplayName: " + (displayName + (", Reputation: " + (reputation + (", Location: " + (location + (", Views: " + (views + (", UpVotes: " + (upVotes + (", DownVotes: " + (downVotes + (", Website: " + (website + ")")))))))))))))))
  }

  /** The text opens with the id and closes with the website. */
  lemma UserTextEnds(id: string, displayName: string, reputation: string, location: string,
                     views: string, upVotes: string, downVotes: string, website: string)
    ensures var t := UserText(id, displayName, reputation, location, views, upVotes, downVotes, website);
      var tail := ", Website: " + (website + ")");
      "User(Id: " + id <= t && |tail| <= |t| && t[|t| - |tail|..] == tail
  {
    var tail := ", Website: " + (website + ")");
    var rest := ", DisplayName: " + (displayName + (", Reputation: " + (reputation + (", Location: " + (location + (", Views: " + (views + (", UpVotes: " + (upVotes + (", DownVotes: " + (downVotes + tail)))))))))));
    assert rest == rest[..|rest| - |tail|] + tail;
    ConcatAssoc("User(Id: ", id, rest);
    ConcatAssoc("User(Id: " + id, rest[..|rest| - |tail|], tail);
  }

  /**
   * `str(user)` shows, in this order, the to_dict() entries Id, DisplayName,
   * Reputation, Location, Views, UpVotes, DownVotes and WebsiteUrl, and no other.
   */
  lemma UserStringShowsDictEntries(u: User, iso: DateTime -> string, dateText: DateTime -> string)
    ensures var d := UserToDict(u, iso);
      UserToString(u, dateText) == UserText(ToText(Field(d, "Id"), dateText), ToText(Field(d, "DisplayName"), dateText),
        ToText(Field(d, "Reputation"), dateText), ToText(Field(d, "Location"), dateText),
        ToText(Field(d, "Views"), dateText), ToText(Field(d, "UpVotes"), dateText),
        ToText(Field(d, "DownVotes"), dateText), ToText(Field(d, "WebsiteUrl"), dateText))
  {
    UserDictRoundTrip(u, iso);
  }
}
