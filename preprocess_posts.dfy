/**
 * `preprocess_posts_data(posts_df, reputable_user_ids)`
 * (Services/DataPreprocessServices/PostsDataPreprocessService.py): keep the
 * posts written by a reputable owner whose PostTypeId is 1 or 2, in their
 * original order, reduced to six columns.
 */
module PostsPreprocess {
  import opened Values
  import opened Frames

  /** `columns_to_keep`, in order; `Id` is not among them. */
  const PostColumns: seq<string> := ["PostTypeId", "Score", "Title", "OwnerUserId", "AnswerCount", "Body"]

  /** The PostTypeIds that are kept: questions and answers. */
  const KeptPostTypes: seq<Value> := [Int(1), Int(2)]

  /** The boolean mask of the source, for one row. */
  predicate Qualifies(row: Row, reputable: seq<Value>): (q: bool)
    ensures q ==> exists w :: w in reputable && SameValue(Get(row, "OwnerUserId"), w)
    ensures q ==> IsInt(Get(row, "PostTypeId")) && IntOf(Get(row, "PostTypeId")) in {1, 2}
    ensures Get(row, "OwnerUserId") in reputable && Get(row, "PostTypeId") in KeptPostTypes ==> q
    ensures reputable == [] ==> !q
  {
    IsIn(Get(row, "OwnerUserId"), reputable) && IsIn(Get(row, "PostTypeId"), KeptPostTypes)
  }

  /** The rows the mask selects, in their original order. */
  function QualifyingRows(rows: seq<Row>, reputable: seq<Value>): (kept: seq<Row>)
    ensures |kept| <= |rows|
    ensures forall row :: row in kept ==> row in rows && Qualifies(row, reputable)
    ensures forall row :: row in rows && Qualifies(row, reputable) ==> row in kept
  {
    var p := (row: Row) => Qualifies(row, reputable);
    forall row | row in rows && Qualifies(row, reputable) ensures row in Filter(rows, p) {
      FilterKeeps(rows, p, row);
    }
    Filter(rows, p)
  }

  /**
   * The mask reads `OwnerUserId` first and `PostTypeId` second, so a missing
   * column raises KeyError in that order; the final selection raises KeyError
   * for a missing kept column.
   */
  function PreprocessPosts(posts: Frame, reputable: seq<Value>): (r: Result<Frame>)
    ensures "OwnerUserId" !in posts.columns ==> r == Err(KeyError("OwnerUserId"))
    ensures "OwnerUserId" in posts.columns && "PostTypeId" !in posts.columns ==> r == Err(KeyError("PostTypeId"))
    ensures r.Ok? <==> forall c :: c in PostColumns ==> c in posts.columns
    ensures r.Err? ==> r.error.KeyError? && r.error.key in PostColumns && r.error.key !in posts.columns
    ensures r.Ok? ==> r.value.columns == PostColumns && "Id" !in r.value.columns
    ensures r.Ok? ==> |r.value.rows| <= |posts.rows|
  {
    if "OwnerUserId" !in posts.columns then Err(KeyError("OwnerUserId"))
    else if "PostTypeId" !in posts.columns then Err(KeyError("PostTypeId"))
    else Select(Frame(posts.columns, QualifyingRows(posts.rows, reputable)), PostColumns)
  }

  /** The result rows are the qualifying rows, in order, each reduced to the kept columns with its values unchanged. */
  lemma PostsRowsAreQualifyingRows(posts: Frame, reputable: seq<Value>)
    requires PreprocessPosts(posts, reputable).Ok?
    ensures var out := PreprocessPosts(posts, reputable).value.rows;
      var kept := QualifyingRows(posts.rows, reputable);
      |out| == |kept| &&
      forall k :: 0 <= k < |out| ==> out[k] == Project(kept[k], PostColumns)
  {
  }

  /** Every kept post has a reputable owner and a PostTypeId of 1 or 2. */
  lemma PostsKeptRowsQualify(posts: Frame, reputable: seq<Value>, k: nat)
    requires PreprocessPosts(posts, reputable).Ok?
    requires k < |PreprocessPosts(posts, reputable).value.rows|
    ensures var row := PreprocessPosts(posts, reputable).value.rows[k];
      IsIn(Get(row, "OwnerUserId"), reputable) && IsIn(Get(row, "PostTypeId"), KeptPostTypes)
  {
    var kept := QualifyingRows(posts.rows, reputable);
    assert kept[k] in kept;
    var row := PreprocessPosts(posts, reputable).value.rows[k];
    assert row == Project(kept[k], PostColumns);
    assert Get(row, "OwnerUserId") == Get(kept[k], "OwnerUserId");
    assert Get(row, "PostTypeId") == Get(kept[k], "PostTypeId");
  }

  /** Every qualifying input post is kept. */
  lemma PostsKeepsQualifying(posts: Frame, reputable: seq<Value>, row: Row)
    requires PreprocessPosts(posts, reputable).Ok?
    requires row in posts.rows && Qualifies(row, reputable)
    ensures Project(row, PostColumns) in PreprocessPosts(posts, reputable).value.rows
  {
    var kept := QualifyingRows(posts.rows, reputable);
    FilterKeeps(posts.rows, (row: Row) => Qualifies(row, reputable), row);
    var k :| 0 <= k < |kept| && kept[k] == row;
    assert PreprocessPosts(posts, reputable).value.rows[k] == Project(row, PostColumns);
  }

  /** Order is preserved: preprocessing two batches of posts is preprocessing them one after the other. */
  lemma PostsConcat(columns: seq<string>, a: seq<Row>, b: seq<Row>, reputable: seq<Value>)
    requires PreprocessPosts(Frame(columns, a + b), reputable).Ok?
    ensures PreprocessPosts(Frame(columns, a), reputable).Ok? && PreprocessPosts(Frame(columns, b), reputable).Ok?
    ensures PreprocessPosts(Frame(columns, a + b), reputable).value.rows
         == PreprocessPosts(Frame(columns, a), reputable).value.rows
          + PreprocessPosts(Frame(columns, b), reputable).value.rows
  {
    FilterConcat(a, b, (row: Row) => Qualifies(row, reputable));
    SelectConcat(columns, QualifyingRows(a, reputable), QualifyingRows(b, reputable), PostColumns);
  }

  /** No reputable users, no posts. */
  lemma PostsEmptyReputable(posts: Frame)
    requires PreprocessPosts(posts, []).Ok?
    ensures PreprocessPosts(posts, []).value.rows == []
  {
    FilterNone(posts.rows, (row: Row) => Qualifies(row, []));
  }
}
