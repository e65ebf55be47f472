/** The comment record (Domain/Models/Comment.py). */
module CommentModel {
  import opened Values

  datatype Comment = Comment(postId: Value, score: Value, text: Value)

  /** `Comment(post_id, score=0, text="")`: the arguments are stored as they are. */
  function NewComment(postId: Value, score: Value := Int(0), text: Value := Str("")): (c: Comment)
    ensures c.postId == postId && c.score == score && c.text == text
  {
    Comment(postId, score, text)
  }

  /** The keys of `to_dict()`, in order; the first is spelled "PostID". */
  const CommentKeys: seq<string> := ["PostID", "Score", "Text"]

  /** `to_dict()`. */
  function CommentToDict(c: Comment): (d: Dict)
    ensures Keys(d) == CommentKeys && DistinctKeys(d)
  {
    [("PostID", c.postId), ("Score", c.score), ("Text", c.text)]
  }

  /** Rebuilds a comment from a dict with the keys `to_dict()` writes. */
  function CommentFromDict(d: Dict): Option<Comment> {
    match (Lookup(d, "PostID"), Lookup(d, "Score"), Lookup(d, "Text"))
    case (Some(p), Some(s), Some(t)) => Some(Comment(p, s, t))
    case _ => None
  }

  /** `to_dict()` loses nothing: every field comes back from its key. */
  lemma CommentDictRoundTrip(c: Comment)
    ensures CommentFromDict(CommentToDict(c)) == Some(c)
  {
    var d := CommentToDict(c);
    LookupAt(d, 0);
    LookupAt(d, 1);
    LookupAt(d, 2);
  }

  /** Because of the spelling "PostID", a reader that asks for the "PostId" column of the data finds nothing. */
  lemma CommentDictHasNoPostId(c: Comment)
    ensures Lookup(CommentToDict(c), "PostId") == None
  {
  }

  const PostIdLabel: string := "Comment(PostId="
  const ScoreLabel: string := ", Score="
  const TextLabel: string := ", Text="

  /** `str(comment)`: "Comment(PostId=<post_id>, Score=<score>, Text=<text>)"; `dateText` stands for `str()` of a datetime. */
  function CommentToString(c: Comment, dateText: DateTime -> string): (t: string)
    ensures PostIdLabel + ToText(c.postId, dateText) + ScoreLabel <= t
    ensures var tail := TextLabel + ToText(c.text, dateText) + ")";
      |tail| <= |t| && t[|t| - |tail|..] == tail
    ensures |t| == |PostIdLabel| + |ScoreLabel| + |TextLabel| + 1
      + |ToText(c.postId, dateText)| + |ToText(c.score, dateText)| + |ToText(c.text, dateText)|
  {
    CommentTextShape(ToText(c.postId, dateText), ToText(c.score, dateText), ToText(c.text, dateText));
    CommentText(ToText(c.postId, dateText), ToText(c.score, dateText), ToText(c.text, dateText))
  }

  /** The format string of `__str__`, filled with the three texts. */
  function CommentText(postId: string, score: string, text: string): string {
    PostIdLabel + (postId + (ScoreLabel + (score + (TextLabel + (text + ")")))))
  }

  /** The filled format opens with the post id and the score label, closes with the text, and holds nothing else. */
  lemma CommentTextShape(postId: string, score: string, text: string)
    ensures PostIdLabel + postId + ScoreLabel <= CommentText(postId, score, text)
    ensures var t := CommentText(postId, score, text);
      var tail := TextLabel + text + ")";
      |tail| <= |t| && t[|t| - |tail|..] == tail
    ensures |CommentText(postId, score, text)| == |PostIdLabel| + |ScoreLabel| + |TextLabel| + 1 + |postId| + |score| + |text|
  {
    var tail := TextLabel + (text + ")");
    var t := CommentText(postId, score, text);
    var head := PostIdLabel + postId + ScoreLabel;
    var mid := score;
    ConcatAssoc(TextLabel, text, ")");
    ConcatAssoc(PostIdLabel, postId, ScoreLabel + (mid + tail));
    ConcatAssoc(PostIdLabel + postId, ScoreLabel, mid + tail);
    assert t == head + (mid + tail);
    ConcatAssoc(head, mid, tail);
    assert t == (head + mid) + tail;
  }

  /** The rest of `t` after `heading`, when `t` starts with it. */
  function AfterLabel(t: string, heading: string): Option<string> {
    if |t| >= |heading| && t[..|heading|] == heading then Some(t[|heading|..]) else None
  }

  /** An int written as `str(i)`, read up to the next ',', and what follows. */
  function ReadIntField(a: string): Option<(int, string)> {
    var k := IndexOf(a, ',');
    match ParseIntText(a[..k])
    case Ok(i) => Some((i, a[k..]))
    case Err(_) => None
  }

  /** Reads an int-valued post id and score and the text back from `str(comment)`. */
  function ParseCommentString(t: string): Option<(int, int, string)> {
    match AfterLabel(t, PostIdLabel)
    case None => None
    case Some(a) =>
      match ReadIntField(a)
      case None => None
      case Some((postId, b)) =>
        match AfterLabel(b, ScoreLabel)
        case None => None
        case Some(c) =>
          match ReadIntField(c)
          case None => None
          case Some((score, e)) =>
            match AfterLabel(e, TextLabel)
            case None => None
            case Some(f) => if f != [] && f[|f| - 1] == ')' then Some((postId, score, f[..|f| - 1])) else None
  }

  lemma AfterLabelOf(heading: string, rest: string)
    ensures AfterLabel(heading + rest, heading) == Some(rest)
  {
    assert (heading + rest)[..|heading|] == heading;
  }

  lemma ReadIntFieldOf(i: int, rest: string)
    requires rest != [] && rest[0] == ','
    ensures ReadIntField(IntToString(i) + rest) == Some((i, rest))
  {
    IntToStringHasNo(i, ',');
    IndexOfAfter(IntToString(i), rest, ',');
    assert (IntToString(i) + rest)[..|IntToString(i)|] == IntToString(i);
    assert (IntToString(i) + rest)[|IntToString(i)|..] == rest;
    ToIntRoundTrip(i);
  }

  /** With an int post id and score, `str(comment)` shows all three fields recoverably, whatever the text holds. */
  lemma CommentStringRoundTrip(postId: int, score: int, text: string, dateText: DateTime -> string)
    ensures ParseCommentString(CommentToString(Comment(Int(postId), Int(score), Str(text)), dateText))
         == Some((postId, score, text))
  {
    var c := Comment(Int(postId), Int(score), Str(text));
    assert ToText(c.postId, dateText) == IntToString(postId);
    assert ToText(c.score, dateText) == IntToString(score);
    assert ToText(c.text, dateText) == text;
    assert CommentToString(c, dateText) == CommentText(IntToString(postId), IntToString(score), text);
    CommentTextParses(postId, score, text);
  }

  lemma CommentTextParses(postId: int, score: int, text: string)
    ensures ParseCommentString(CommentText(IntToString(postId), IntToString(score), text)) == Some((postId, score, text))
  {
    var p, s := IntToString(postId), IntToString(score);
    var tail := TextLabel + (text + ")");
    var second := ScoreLabel + (s + tail);
    AfterLabelOf(PostIdLabel, p + second);
    ReadIntFieldOf(postId, second);
    AfterLabelOf(ScoreLabel, s + tail);
    ReadIntFieldOf(score, tail);
    AfterLabelOf(TextLabel, text + ")");
    assert (text + ")")[..|text|] == text;
  }
}
