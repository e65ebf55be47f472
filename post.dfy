/** The post record (Domain/Models/Post.py). */
module PostModel {
  import opened Values

  datatype Post = Post(
    id: Value, postTypeId: Value, acceptedAnswerId: Value, parentId: Value, creationDate: Value,
    deletionDate: Value, score: Value, viewCount: Value, body: Value, ownerUserId: Value,
    ownerDisplayName: Value, lastEditorUserId: Value, lastEditorDisplayName: Value, lastEditDate: Value,
    lastActivityDate: Value, title: Value, tags: Value, answerCount: Value, commentCount: Value,
    favoriteCount: Value, closedDate: Value, communityOwnedDate: Value, contentLicense: Value)

  /**
   * `Post(...)` with the declared defaults: ids and dates None, counts 0 and
   * texts "". A falsy `creation_date` is replaced by `datetime.now()`, whose
   * value is `clock`.
   */
  function NewPost(clock: DateTime,
                   id: Value := NoneV, postTypeId: Value := NoneV, acceptedAnswerId: Value := NoneV,
                   parentId: Value := NoneV, creationDate: Value := NoneV, deletionDate: Value := NoneV,
                   score: Value := Int(0), viewCount: Value := Int(0), body: Value := Str(""),
                   ownerUserId: Value := NoneV, ownerDisplayName: Value := Str(""),
                   lastEditorUserId: Value := NoneV, lastEditorDisplayName: Value := Str(""),
                   lastEditDate: Value := NoneV, lastActivityDate: Value := NoneV, title: Value := Str(""),
                   tags: Value := Str(""), answerCount: Value := Int(0), commentCount: Value := Int(0),
                   favoriteCount: Value := Int(0), closedDate: Value := NoneV,
                   communityOwnedDate: Value := NoneV, contentLicense: Value := Str("")): (p: Post)
    ensures Truthy(p.creationDate)
    ensures p.creationDate == (if Truthy(creationDate) then creationDate else Date(clock))
    ensures p.id == id && p.postTypeId == postTypeId && p.acceptedAnswerId == acceptedAnswerId
    ensures p.parentId == parentId && p.deletionDate == deletionDate && p.score == score
    ensures p.viewCount == viewCount && p.body == body && p.ownerUserId == ownerUserId
    ensures p.ownerDisplayName == ownerDisplayName && p.lastEditorUserId == lastEditorUserId
    ensures p.lastEditorDisplayName == lastEditorDisplayName && p.lastEditDate == lastEditDate
    ensures p.lastActivityDate == lastActivityDate && p.title == title && p.tags == tags
    ensures p.answerCount == answerCount && p.commentCount == commentCount
    ensures p.favoriteCount == favoriteCount && p.closedDate == closedDate
    ensures p.communityOwnedDate == communityOwnedDate && p.contentLicense == contentLicense
  {
    Post(id, postTypeId, acceptedAnswerId, parentId, Or(creationDate, Date(clock)), deletionDate, score,
         viewCount, body, ownerUserId, ownerDisplayName, lastEditorUserId, lastEditorDisplayName,
         lastEditDate, lastActivityDate, title, tags, answerCount, commentCount, favoriteCount,
         closedDate, communityOwnedDate, contentLicense)
  }

  /** The 23 keys of `to_dict()`, in order. */
  const PostKeys: seq<string> := ["Id", "PostTypeId", "AcceptedAnswerId", "ParentId", "CreationDate",
    "DeletionDate", "Score", "ViewCount", "Body", "OwnerUserId", "OwnerDisplayName", "LastEditorUserId",
    "LastEditorDisplayName", "LastEditDate", "LastActivityDate", "Title", "Tags", "AnswerCount",
    "CommentCount", "FavoriteCount", "ClosedDate", "CommunityOwnedDate", "ContentLicense"]

  /** `to_dict()`; the six dates go through `serialize_date`, with `iso` for `datetime.isoformat()`. */
  function PostToDict(p: Post, iso: DateTime -> string): (d: Dict)
    ensures Keys(d) == PostKeys
  {
    [("Id", p.id), ("PostTypeId", p.postTypeId), ("AcceptedAnswerId", p.acceptedAnswerId),
     ("ParentId", p.parentId), ("CreationDate", SerializeDate(p.creationDate, iso)),
     ("DeletionDate", SerializeDate(p.deletionDate, iso)), ("Score", p.score), ("ViewCount", p.viewCount),
     ("Body", p.body), ("OwnerUserId", p.ownerUserId), ("OwnerDisplayName", p.ownerDisplayName),
     ("LastEditorUserId", p.lastEditorUserId), ("LastEditorDisplayName", p.lastEditorDisplayName),
     ("LastEditDate", SerializeDate(p.lastEditDate, iso)),
     ("LastActivityDate", SerializeDate(p.lastActivityDate, iso)), ("Title", p.title), ("Tags", p.tags),
     ("AnswerCount", p.answerCount), ("CommentCount", p.commentCount), ("FavoriteCount", p.favoriteCount),
     ("ClosedDate", SerializeDate(p.closedDate, iso)),
     ("CommunityOwnedDate", SerializeDate(p.communityOwnedDate, iso)), ("ContentLicense", p.contentLicense)]
  }

  /** The 23 keys are 23 different names. */
  lemma PostKeysDistinct()
    ensures |PostKeys| == 23 && Distinct(PostKeys)
  {
  }

  /** Rebuilds a post from the keys `to_dict()` writes. */
  function PostFromDict(d: Dict): Post {
    Post(Field(d, "Id"), Field(d, "PostTypeId"), Field(d, "AcceptedAnswerId"), Field(d, "ParentId"),
         Field(d, "CreationDate"), Field(d, "DeletionDate"), Field(d, "Score"), Field(d, "ViewCount"),
         Field(d, "Body"), Field(d, "OwnerUserId"), Field(d, "OwnerDisplayName"),
         Field(d, "LastEditorUserId"), Field(d, "LastEditorDisplayName"), Field(d, "LastEditDate"),
         Field(d, "LastActivityDate"), Field(d, "Title"), Field(d, "Tags"), Field(d, "AnswerCount"),
         Field(d, "CommentCount"), Field(d, "FavoriteCount"), Field(d, "ClosedDate"),
         Field(d, "CommunityOwnedDate"), Field(d, "ContentLicense"))
  }

  /** Every date of a post, serialised. */
  function SerializedDates(p: Post, iso: DateTime -> string): Post {
    p.(creationDate := SerializeDate(p.creationDate, iso), deletionDate := SerializeDate(p.deletionDate, iso),
       lastEditDate := SerializeDate(p.lastEditDate, iso), lastActivityDate := SerializeDate(p.lastActivityDate, iso),
       closedDate := SerializeDate(p.closedDate, iso), communityOwnedDate := SerializeDate(p.communityOwnedDate, iso))
  }

  /** `to_dict()` keeps every field verbatim, except that the six dates are serialised. */
  lemma PostDictRoundTrip(p: Post, iso: DateTime -> string)
    ensures PostFromDict(PostToDict(p, iso)) == SerializedDates(p, iso)
  {
    var d := PostToDict(p, iso);
    PostKeysDistinct();
    DistinctKeysOf(d, PostKeys);
    FieldAt(d, 0); FieldAt(d, 1); FieldAt(d, 2); FieldAt(d, 3); FieldAt(d, 4); FieldAt(d, 5);
    FieldAt(d, 6); FieldAt(d, 7); FieldAt(d, 8); FieldAt(d, 9); FieldAt(d, 10); FieldAt(d, 11);
    FieldAt(d, 12); FieldAt(d, 13); FieldAt(d, 14); FieldAt(d, 15); FieldAt(d, 16); FieldAt(d, 17);
    FieldAt(d, 18); FieldAt(d, 19); FieldAt(d, 20); FieldAt(d, 21); FieldAt(d, 22);
  }

  /** A post that holds no datetime comes back whole from its dict. */
  lemma PostDictRoundTripWithoutDates(p: Post, iso: DateTime -> string)
    requires !p.creationDate.Date? && !p.deletionDate.Date? && !p.lastEditDate.Date?
    requires !p.lastActivityDate.Date? && !p.closedDate.Date? && !p.communityOwnedDate.Date?
    ensures PostFromDict(PostToDict(p, iso)) == p
  {
    PostDictRoundTrip(p, iso);
  }

  /** A constructed post's dict always has a creation date: the given truthy value, serialised, or the clock's isoformat text. */
  lemma NewPostDictCreationDate(clock: DateTime, creationDate: Value, iso: DateTime -> string)
    ensures var d := PostToDict(NewPost(clock, creationDate := creationDate), iso);
      Field(d, "CreationDate") != NoneV &&
      (Truthy(creationDate) ==> Field(d, "CreationDate") == SerializeDate(creationDate, iso)) &&
      (!Truthy(creationDate) ==> Field(d, "CreationDate") == Str(iso(clock)))
  {
    PostDictRoundTrip(NewPost(clock, creationDate := creationDate), iso);
  }
}
