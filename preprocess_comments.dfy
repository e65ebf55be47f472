/**
 * `preprocess_comments_data(comments_df)`
 * (Services/DataPreprocessServices/CommentsDataPreprocessService.py): keep
 * four columns, drop the comments whose UserId is missing, and replace each
 * Text by `clean_text` of it.
 */
module CommentsPreprocess {
  import opened Values
  import opened Frames
  import opened TextCleanService

  /** The selected columns, in order; `Id` is not among them. */
  const CommentColumns: seq<string> := ["PostId", "Score", "Text", "UserId"]

  /** `dropna(subset=['UserId'])` keeps a row exactly when this holds. */
  predicate HasUserId(row: Row): (h: bool)
    ensures h <==> "UserId" in row && !row["UserId"].NoneV? && !row["UserId"].NaN?
  {
    !IsMissing(Get(row, "UserId"))
  }

  /** `dropna(subset=['UserId'])`: the rows with a UserId, in their original order. */
  function RowsWithUser(rows: seq<Row>): (kept: seq<Row>)
    ensures |kept| <= |rows|
    ensures forall row :: row in kept ==> row in rows && HasUserId(row)
    ensures forall row :: row in rows && HasUserId(row) ==> row in kept
  {
    forall row | row in rows && HasUserId(row) ensures row in Filter(rows, HasUserId) {
      FilterKeeps(rows, HasUserId, row);
    }
    Filter(rows, HasUserId)
  }

  /** A row whose Text has been cleaned; `re.sub` raises TypeError on anything but a string. */
  function CleanRow(row: Row): (r: Result<Row>)
    ensures r.Ok? <==> Get(row, "Text").Str?
    ensures r.Err? ==> r.error == TypeError
    ensures r.Ok? ==> r.value.Keys == row.Keys + {"Text"}
    ensures r.Ok? ==> Get(r.value, "Text") == Str(CleanText(Get(row, "Text").s))
    ensures r.Ok? ==> forall c :: c != "Text" ==> Get(r.value, c) == Get(row, c)
  {
    match Get(row, "Text")
    case Str(s) => Ok(row["Text" := Str(CleanText(s))])
    case _ => Err(TypeError)
  }

  /** `Series.apply(clean_text)` on the Text column: fails on the first row whose Text is not a string. */
  function CleanRows(rows: seq<Row>): (r: Result<seq<Row>>)
    ensures r.Ok? <==> forall k :: 0 <= k < |rows| ==> Get(rows[k], "Text").Str?
    ensures r.Err? ==> r.error == TypeError
    ensures r.Ok? ==> |r.value| == |rows|
    ensures r.Ok? ==> forall k :: 0 <= k < |rows| ==> CleanRow(rows[k]) == Ok(r.value[k])
    decreases |rows|
  {
    if rows == [] then Ok([])
    else match CleanRow(rows[0])
      case Err(e) => Err(e)
      case Ok(first) =>
        match CleanRows(rows[1..])
        case Err(e) => Err(e)
        case Ok(rest) => ApplyCons(CleanRow, rows, first, rest); Ok([first] + rest)
  }

  /** Applying `f` to the first element and then to the rest applies it to every element in place. */
  lemma {:induction false} ApplyCons<T, U>(f: T -> Result<U>, xs: seq<T>, first: U, rest: seq<U>)
    requires xs != [] && f(xs[0]) == Ok(first)
    requires |rest| == |xs| - 1
    requires forall k :: 0 <= k < |rest| ==> f(xs[1..][k]) == Ok(rest[k])
    ensures forall k :: 0 <= k < |xs| ==> f(xs[k]) == Ok(([first] + rest)[k])
  {
    forall k | 0 <= k < |xs|
      ensures f(xs[k]) == Ok(([first] + rest)[k])
    {
      if k > 0 {
        assert xs[1..][k - 1] == xs[k];
        assert ([first] + rest)[k] == rest[k - 1];
      }
    }
  }

  function PreprocessComments(comments: Frame): (r: Result<Frame>)
    ensures r.Ok? ==> r.value.columns == CommentColumns && "Id" !in r.value.columns
    ensures r.Ok? ==> |r.value.rows| <= |comments.rows|
  {
    match Select(comments, CommentColumns)
    case Err(e) => Err(e)
    case Ok(selected) =>
      match CleanRows(RowsWithUser(selected.rows))
      case Err(e) => Err(e)
      case Ok(rows) => Ok(Frame(CommentColumns, rows))
  }

  /** Dropping rows before or after the projection is the same, since UserId is among the selected columns. */
  lemma ProjectFilterCommute(rows: seq<Row>, sel: seq<Row>)
    requires |sel| == |rows|
    requires forall k :: 0 <= k < |rows| ==> sel[k] == Project(rows[k], CommentColumns)
    ensures |RowsWithUser(sel)| == |RowsWithUser(rows)|
    ensures forall k :: 0 <= k < |RowsWithUser(rows)| ==>
      RowsWithUser(sel)[k] == Project(RowsWithUser(rows)[k], CommentColumns)
  {
    var f := (r: Row) => Project(r, CommentColumns);
    forall k | 0 <= k < |rows| ensures sel[k] == f(rows[k]) && HasUserId(sel[k]) == HasUserId(rows[k]) {
      assert Get(sel[k], "UserId") == Get(rows[k], "UserId");
    }
    FilterMapCommute(rows, sel, f, HasUserId, HasUserId);
  }

  /**
   * Row by row: the result lists the comments that have a UserId, in order;
   * Text is the cleaned input Text and PostId, Score and UserId pass through.
   */
  lemma CommentsRowwise(comments: Frame)
    requires PreprocessComments(comments).Ok?
    ensures var out := PreprocessComments(comments).value.rows;
      var kept := RowsWithUser(comments.rows);
      |out| == |kept| &&
      forall k :: 0 <= k < |out| ==>
        HasUserId(out[k]) &&
        Get(kept[k], "Text").Str? &&
        Get(out[k], "Text") == Str(CleanText(Get(kept[k], "Text").s)) &&
        Get(out[k], "PostId") == Get(kept[k], "PostId") &&
        Get(out[k], "Score") == Get(kept[k], "Score") &&
        Get(out[k], "UserId") == Get(kept[k], "UserId")
  {
    var selected := Select(comments, CommentColumns).value;
    var kept := RowsWithUser(comments.rows);
    var selKept := RowsWithUser(selected.rows);
    ProjectFilterCommute(comments.rows, selected.rows);
    var out := PreprocessComments(comments).value.rows;
    forall k | 0 <= k < |out|
      ensures HasUserId(out[k])
      ensures Get(kept[k], "Text").Str?
      ensures Get(out[k], "Text") == Str(CleanText(Get(kept[k], "Text").s))
      ensures Get(out[k], "PostId") == Get(kept[k], "PostId")
      ensures Get(out[k], "Score") == Get(kept[k], "Score")
      ensures Get(out[k], "UserId") == Get(kept[k], "UserId")
    {
      assert CleanRow(selKept[k]) == Ok(out[k]);
      assert selKept[k] == Project(kept[k], CommentColumns);
      assert kept[k] in kept;
      CleanedCommentRow(kept[k], selKept[k], out[k]);
    }
  }

  /** One kept comment: what its projected and cleaned row holds. */
  lemma CleanedCommentRow(row: Row, sel: Row, out: Row)
    requires HasUserId(row) && sel == Project(row, CommentColumns) && CleanRow(sel) == Ok(out)
    ensures HasUserId(out) && Get(row, "Text").Str?
    ensures Get(out, "Text") == Str(CleanText(Get(row, "Text").s))
    ensures Get(out, "PostId") == Get(row, "PostId")
    ensures Get(out, "Score") == Get(row, "Score")
    ensures Get(out, "UserId") == Get(row, "UserId")
  {
    ProjectedComment(row, sel);
    CleanedKeepsColumns(sel, out);
  }

  /** The projection keeps the four comment columns' values. */
  lemma ProjectedComment(row: Row, sel: Row)
    requires sel == Project(row, CommentColumns)
    ensures Get(sel, "PostId") == Get(row, "PostId") && Get(sel, "Score") == Get(row, "Score")
    ensures Get(sel, "Text") == Get(row, "Text") && Get(sel, "UserId") == Get(row, "UserId")
  {
    assert CommentColumns[0] == "PostId" && CommentColumns[1] == "Score";
    assert CommentColumns[2] == "Text" && CommentColumns[3] == "UserId";
  }

  /** Cleaning a row leaves its PostId, Score and UserId as they were. */
  lemma CleanedKeepsColumns(sel: Row, out: Row)
    requires CleanRow(sel) == Ok(out)
    ensures Get(out, "PostId") == Get(sel, "PostId") && Get(out, "Score") == Get(sel, "Score")
    ensures Get(out, "UserId") == Get(sel, "UserId")
  {
    var t := Get(sel, "Text").s;
    assert out == sel["Text" := Str(CleanText(t))];
    assert |"PostId"| != |"Text"| && |"Score"| != |"Text"| && |"UserId"| != |"Text"|;
  }

  /**
   * When it fails: a missing column raises KeyError; otherwise a comment with
   * a UserId whose Text is not a string raises TypeError.
   */
  lemma CommentsErrors(comments: Frame)
    ensures (exists c :: c in CommentColumns && c !in comments.columns) ==>
      PreprocessComments(comments).Err? && PreprocessComments(comments).error.KeyError?
    ensures (forall c :: c in CommentColumns ==> c in comments.columns) ==>
      (PreprocessComments(comments).Err? <==>
         exists k :: 0 <= k < |RowsWithUser(comments.rows)| && !Get(RowsWithUser(comments.rows)[k], "Text").Str?)
    ensures (forall c :: c in CommentColumns ==> c in comments.columns) && PreprocessComments(comments).Err? ==>
      PreprocessComments(comments).error == TypeError
  {
    if forall c :: c in CommentColumns ==> c in comments.columns {
      var selected := Select(comments, CommentColumns).value;
      var kept := RowsWithUser(comments.rows);
      var selKept := RowsWithUser(selected.rows);
      ProjectFilterCommute(comments.rows, selected.rows);
      forall k | 0 <= k < |kept| ensures Get(selKept[k], "Text") == Get(kept[k], "Text") {
      }
    }
  }

  /** Every comment that has a UserId survives, with its Text cleaned. */
  lemma CommentsKeepsUserComments(comments: Frame, row: Row)
    requires PreprocessComments(comments).Ok?
    requires row in comments.rows && HasUserId(row)
    ensures Get(row, "Text").Str?
    ensures exists k :: (0 <= k < |PreprocessComments(comments).value.rows| &&
      Get(PreprocessComments(comments).value.rows[k], "UserId") == Get(row, "UserId") &&
      Get(PreprocessComments(comments).value.rows[k], "Text") == Str(CleanText(Get(row, "Text").s)))
  {
    CommentsRowwise(comments);
    FilterKeeps(comments.rows, HasUserId, row);
    var kept := RowsWithUser(comments.rows);
    var k :| 0 <= k < |kept| && kept[k] == row;
  }
}
