# Server faults: a verified model of the deterministic core

This project models the deterministic core of *server_faults_ML_Big_Data*, a
Python program that does three things:

- it preprocesses Stack Exchange posts and comments with pandas;
- it injects "faults" (posts picked from that data) into a small fleet of
  simulated servers;
- it draws the fleet as ASCII art.

The modelled parts are listed below. Each is followed by its Dafny module.

- **Server fault ledger**, `ServerModel` (`server.dfy`).
  - A `Server` class holds an id, a name and an append-only `seq<int>` ledger of fault ids.
  - `AddFault` (`dodaj_otkaz`) accepts any `int`, which includes `bool` because of Python's `isinstance`.
  - `ToString` is `__str__`.
- **One fault-injection step**, `FaultSimulation` (`fault_injection.dfy`).
  - The method takes the drawn index (0..9) and the picked fault frame as parameters.
  - It updates only the chosen server object.
  - It raises the exception the source would raise, in the order the source evaluates its expression.
- **The fleet status picture**, `ServerStatusUI` (`status_ui.dfy`).
  - `ShowServersStatus` builds `result` with the source's nested loops.
  - It is proved equal to `Layout(Blocks(servers))`, a function built from rows of 4, 3, 2 and 1 blocks. The lemmas about that function are:
    - only the first ten servers show;
    - an empty fleet draws nothing;
    - every row splits into its line texts followed by one empty line;
    - a block is three art lines and three centred info lines, when the id prefix and the first word of the name hold no line boundary.
  - `str.splitlines` is modelled with Python's full set of line boundaries. `str.center` uses CPython's rule for placing the odd space.
- **The comment text cleaner**, `TextCleanService` (`text_clean.dfy`).
  - `re.sub(r'<[^>]+>', '', s)` is written as a left-to-right matcher.
  - Runs of `[\r\n\t]` collapse to one space.
  - `strip()` uses Python's whitespace set.
  - Proved: the output is free of tags, breaks and surrounding whitespace; it is never longer than the input; cleaning is idempotent; the fixed points are exactly the clean texts.
- **Posts and comments preprocessing**, `PostsPreprocess` and `CommentsPreprocess`.
  - Both work over `Frames`, which holds ordered rows of column-to-value maps:
    - `df[cols]` selects columns and raises `KeyError` on a missing column;
    - `df[mask]` and `dropna` filter rows and keep their order;
    - `apply(clean_text)` raises `TypeError` on a non-string cell.
- **Record serialisers**, `CommentModel`, `UserModel` and `PostModel`.
  - The constructors with their defaults. A falsy date argument is replaced by the clock reading, which is a parameter.
  - `to_dict` with `serialize_date` (`isoformat` is a parameter), proved lossless up to the date serialisation.
  - `__str__` of `Comment` (proved recoverable) and of `User`.

Python values are modelled by `Values.Value`: None, pandas NaN, bool, int, str and datetime.
The exceptions the code raises are results (`Result`, `Outcome`), not preconditions.

Behaviours of the source that the model reproduces as written:

- `preprocess_posts_data` drops the `Id` column that the fault-injection step reads.
  So a fault frame with the columns of preprocessed posts (the result itself, or rows taken from it) has no readable id: with the index in range the step raises `KeyError('Id')`, and it never passes (`FaultSimulation.PreprocessedPostsHaveNoFaultId`).
- `Comment.to_dict` spells its first key `"PostID"`, while the data's column is `PostId` (`CommentModel.CommentDictHasNoPostId`).

`dodaj_otkaz(True)` is accepted, as in the source, because `isinstance(True, int)` holds. Python then appends the bool itself, while the model stores it as 1 (see "## Left out").

## Model

| member | source | states |
|---|---|---|
| `ServerModel.Server.constructor` | Domain/Models/Server.py:4-7 | id and name are stored; without a list the ledger starts empty, a supplied list becomes the ledger as it is |
| `ServerModel.Server.AddFault` | Domain/Models/Server.py:9-13 | an int (or bool) id is appended to the ledger and the call passes; anything else fails with ValueError and leaves the ledger unchanged; id and name never change |
| `ServerModel.LedgerAfter` | Domain/Models/Server.py:9-13 | one call extends the ledger or leaves it: the old ledger is a prefix, it grows by one exactly when the value is an int (or bool), and then the new last entry is that int |
| `ServerModel.Replay` | Domain/Models/Server.py:9-13 | over a series of calls the old ledger stays a prefix and grows by at most one entry per call |
| `ServerModel.ReplayAppendsAccepted` | Domain/Models/Server.py:9-13 | over any series of calls the ledger is append-only: the old ledger is a prefix of the new one, followed exactly by the ids of the successful calls, so the length grows by their number |
| `ServerModel.Server.ToString` | Domain/Models/Server.py:15-17 | `str(server)` is "ID: " + id + "\n" + name + "\nFaulty Times: " + decimal ledger length + "\n", and the count can be read back from it |
| `ServerModel.ServerTextShowsCount` | Domain/Models/Server.py:15-17 | whatever the id and the name, the fault count in the text reads back as the ledger length |
| `Values.NatToString` | Domain/Models/Server.py:17 | `str(n)` of a length is a non-empty string of digits with no leading zero except for 0 |
| `Values.ParseNatToString` | Domain/Models/Server.py:17 | reading back the digits `str(n)` writes gives `n` |
| `Values.NatToStringInjective` | Domain/Models/Server.py:17 | distinct counts are printed differently |
| `Values.IsInt` | Domain/Models/Server.py:10 | `isinstance(v, int)` holds exactly for ints and bools |
| `Values.ToInt` | Services/ServerWorkSimulationWithFaultsServices/ServerWorkSimulationWithFaultsService.py:17 | `int(v)` of an int or bool is its integer value; None and datetime raise TypeError, NaN raises ValueError, and a text is parsed |
| `Values.ParseIntText` | Services/ServerWorkSimulationWithFaultsServices/ServerWorkSimulationWithFaultsService.py:17 | `int(text)` fails only with ValueError, rejects the empty text and a lone sign, reads a run of digits as its decimal value, and accepts only a sign followed by digits (a negative result starts with '-') |
| `Values.IntToString` | Services/ServerWorkSimulationWithFaultsServices/ServerWorkSimulationWithFaultsService.py:17 | `str(i)` is a non-empty text of digits, with a leading '-' exactly when `i` is negative (its inverse is `ToIntRoundTrip`) |
| `Values.ToIntRoundTrip` | Services/ServerWorkSimulationWithFaultsServices/ServerWorkSimulationWithFaultsService.py:17 | `int(str(i)) == i` and `int(i) == i` |
| `FaultSimulation.FaultId` | Services/ServerWorkSimulationWithFaultsServices/ServerWorkSimulationWithFaultsService.py:17 | `int(fault["Id"].iloc[0])`: KeyError('Id') when there is no Id column, IndexError when there are no rows, otherwise exactly `int()` of the first row's Id |
| `FaultSimulation.FaultIdReadsFirstId` | Services/ServerWorkSimulationWithFaultsServices/ServerWorkSimulationWithFaultsService.py:17 | an Id stored as an int or as its decimal text is read back as that int |
| `FaultSimulation.StepOutcome` | Services/ServerWorkSimulationWithFaultsServices/ServerWorkSimulationWithFaultsService.py:14-17 | an index at or past the list length fails with IndexError first; the step passes exactly when the index is in range and the fault id can be read |
| `FaultSimulation.EveryDrawSafe` | Services/ServerWorkSimulationWithFaultsServices/ServerWorkSimulationWithFaultsService.py:14-17 | every draw 0..9 passes if and only if there are at least ten servers and the fault has a readable int Id |
| `FaultSimulation.PreprocessedPostsHaveNoFaultId` | Services/ServerWorkSimulationWithFaultsServices/ServerWorkSimulationWithFaultsService.py:14-17 | a fault frame with the columns posts preprocessing produces has no Id column: reading its id raises KeyError('Id'), the step never passes, and with the index in range it fails with KeyError('Id') |
| `FaultSimulation.TotalAfterAppend` | Services/ServerWorkSimulationWithFaultsServices/ServerWorkSimulationWithFaultsService.py:17 | appending one entry to one ledger raises the fleet's total number of entries by exactly one |
| `FaultSimulation.RunSimulationWithFaults` | Services/ServerWorkSimulationWithFaultsServices/ServerWorkSimulationWithFaultsService.py:8-17 | for an index in 0..9 the outcome is `StepOutcome`; on success the chosen server's ledger grows by the fault id; on failure no ledger changes; no other server object changes; ids and names never change; in a fleet without repeated objects the ledgers are the old ones with only that position extended and the total grows by one |
| `PostsPreprocess.PreprocessPosts` | Services/DataPreprocessServices/PostsDataPreprocessService.py:16-28 | KeyError('OwnerUserId'), then KeyError('PostTypeId'), when the mask's columns are missing; succeeds exactly when all six kept columns exist, and otherwise raises KeyError naming a kept column the frame lacks; the result has exactly those columns in order (no Id) and at most as many rows |
| `PostsPreprocess.Qualifies` | Services/DataPreprocessServices/PostsDataPreprocessService.py:20-23 | a qualifying row's OwnerUserId matches some reputable id under the equality pandas `isin` uses (NaN matches NaN) and its PostTypeId is the int 1 or 2; a row whose values are literally in those lists qualifies; nothing qualifies with no reputable ids |
| `PostsPreprocess.QualifyingRows` | Services/DataPreprocessServices/PostsDataPreprocessService.py:20-23 | the mask keeps exactly the qualifying rows: every kept row is an input row that qualifies, every qualifying row is kept, and there are at most as many |
| `Values.SameValue` | Services/DataPreprocessServices/PostsDataPreprocessService.py:21-22 | the equality pandas `isin` uses (NaN matches NaN, unlike Python's `==`): identical values are equal; two ints or bools are equal exactly when their integer values are; values that are not identical are never equal otherwise |
| `Values.IsIn` | Services/DataPreprocessServices/PostsDataPreprocessService.py:21-22 | `isin` holds for a member of the list, never for the empty list, and only when some list entry matches the value under `SameValue` |
| `PostsPreprocess.PostsRowsAreQualifyingRows` | Services/DataPreprocessServices/PostsDataPreprocessService.py:20-26 | the result rows are the qualifying input rows, in order, each reduced to the six columns with its values unchanged |
| `PostsPreprocess.PostsKeptRowsQualify` | Services/DataPreprocessServices/PostsDataPreprocessService.py:21-22 | every kept row's OwnerUserId is among the reputable ids and its PostTypeId is 1 or 2 |
| `PostsPreprocess.PostsKeepsQualifying` | Services/DataPreprocessServices/PostsDataPreprocessService.py:20-23 | every input row that passes both tests appears in the result |
| `PostsPreprocess.PostsConcat` | Services/DataPreprocessServices/PostsDataPreprocessService.py:20-26 | order is preserved: preprocessing two batches of rows together is preprocessing them one after the other |
| `PostsPreprocess.PostsEmptyReputable` | Services/DataPreprocessServices/PostsDataPreprocessService.py:21 | with no reputable ids the result has no rows |
| `Frames.Select` | Services/DataPreprocessServices/PostsDataPreprocessService.py:26 | `df[cols]` raises KeyError for a column the frame lacks, and otherwise keeps every row reduced to `cols` |
| `Frames.Project` | Services/DataPreprocessServices/PostsDataPreprocessService.py:26 | a reduced row has exactly the selected columns with the original values |
| `Frames.SelectConcat` | Services/DataPreprocessServices/PostsDataPreprocessService.py:26 | column selection commutes with splitting the rows |
| `Frames.Filter` | Services/DataPreprocessServices/PostsDataPreprocessService.py:20-23 | a boolean-mask filter keeps only rows that pass and is never longer than its input |
| `Frames.FilterConcat` | Services/DataPreprocessServices/PostsDataPreprocessService.py:20-23 | filtering keeps order: it distributes over concatenation |
| `Frames.FilterKeeps` | Services/DataPreprocessServices/CommentsDataPreprocessService.py:20 | filtering drops nothing that passes the test |
| `Frames.FilterMapCommute` | Services/DataPreprocessServices/CommentsDataPreprocessService.py:17-20 | filtering after a row-wise map keeps the images of the rows filtering before it keeps, when the tests agree |
| `Values.IsMissing` | Services/DataPreprocessServices/CommentsDataPreprocessService.py:20 | the `isna` test of `dropna`: a cell is missing exactly when it is None or NaN, never an int, bool, text or datetime |
| `Frames.Get` | Services/DataPreprocessServices/CommentsDataPreprocessService.py:17-20 | a cell read gives the row's value in that column, and NaN, which counts as missing, when the row has no such column |
| `CommentsPreprocess.HasUserId` | Services/DataPreprocessServices/CommentsDataPreprocessService.py:20 | a row survives `dropna(subset=['UserId'])` exactly when its UserId is present and neither None nor NaN |
| `CommentsPreprocess.RowsWithUser` | Services/DataPreprocessServices/CommentsDataPreprocessService.py:20 | `dropna` keeps exactly the rows with a UserId: each kept row is an input row that has one, each such row is kept, and there are at most as many |
| `CommentsPreprocess.CleanRow` | Services/DataPreprocessServices/CommentsDataPreprocessService.py:23 | a row's Text is replaced by `clean_text` of it and nothing else changes; a non-string Text raises TypeError |
| `CommentsPreprocess.CleanRows` | Services/DataPreprocessServices/CommentsDataPreprocessService.py:23 | `apply(clean_text)` succeeds exactly when every Text is a string, fails with TypeError otherwise, and cleans each row, keeping the order |
| `CommentsPreprocess.PreprocessComments` | Services/DataPreprocessServices/CommentsDataPreprocessService.py:16-25 | the result has exactly the columns PostId, Score, Text, UserId (no Id) and at most as many rows as the input |
| `CommentsPreprocess.ProjectFilterCommute` | Services/DataPreprocessServices/CommentsDataPreprocessService.py:17-20 | dropping rows without a UserId before or after the column selection gives the same rows, as UserId is selected |
| `CommentsPreprocess.CommentsRowwise` | Services/DataPreprocessServices/CommentsDataPreprocessService.py:17-25 | row k of the result is the k-th input comment with a UserId: it has a UserId, its Text is `clean_text` of the input Text, and PostId, Score and UserId pass through unchanged |
| `CommentsPreprocess.CommentsErrors` | Services/DataPreprocessServices/CommentsDataPreprocessService.py:17-23 | a missing column raises KeyError; otherwise the call fails exactly when some comment with a UserId has a non-string Text, and then with TypeError |
| `CommentsPreprocess.CommentsKeepsUserComments` | Services/DataPreprocessServices/CommentsDataPreprocessService.py:20-23 | every input comment with a UserId survives, with its UserId and its cleaned Text |
| `TextCleanService.StripTags` | Services/TextCleanUpServices/TextCleanService.py:4 | the tag pass never lengthens the text and introduces no character |
| `TextCleanService.StripTagsLeavesNoTag` | Services/TextCleanUpServices/TextCleanService.py:4 | after the tag pass no substring matches `<[^>]+>` |
| `TextCleanService.StripTagsKeepsTagFree` | Services/TextCleanUpServices/TextCleanService.py:4 | a text with no match is left as it is |
| `TextCleanService.StripTagsRemovesTag` | Services/TextCleanUpServices/TextCleanService.py:4 | a leading match `<t>` is removed whole, whatever `t` holds besides '>' |
| `TextCleanService.CollapseBreaks` | Services/TextCleanUpServices/TextCleanService.py:6 | the second pass leaves no `\r`, `\n` or `\t`, adds only spaces and never lengthens the text |
| `TextCleanService.CollapseMaximalRun` | Services/TextCleanUpServices/TextCleanService.py:6 | each maximal run of `\r`, `\n`, `\t` becomes exactly one space |
| `TextCleanService.CollapseAppend` | Services/TextCleanUpServices/TextCleanService.py:6 | the second pass can be applied piecewise at any point that does not cut a run |
| `TextCleanService.CollapseKeepsBreakFree` | Services/TextCleanUpServices/TextCleanService.py:6 | a text without breaks is left as it is |
| `TextCleanService.CollapseKeepsNoTag` | Services/TextCleanUpServices/TextCleanService.py:4-6 | rewriting breaks cannot create a tag |
| `TextCleanService.Strip` | Services/TextCleanUpServices/TextCleanService.py:8 | `strip()` returns the slice between the leading and the trailing Python whitespace, which has none at either end |
| `TextCleanService.StripKeepsTrimmed` | Services/TextCleanUpServices/TextCleanService.py:8 | a text without surrounding whitespace is left as it is |
| `TextCleanService.CleanText` | Services/TextCleanUpServices/TextCleanService.py:1-9 | the cleaned text has no tag, no `\r\n\t`, no surrounding whitespace and is no longer than the input |
| `TextCleanService.CleanTextFixedPoints` | Services/TextCleanUpServices/TextCleanService.py:1-9 | `clean_text(s) == s` if and only if `s` has no tag, no break and no surrounding whitespace |
| `TextCleanService.CleanTextKeepsPlainText` | Services/TextCleanUpServices/TextCleanService.py:1-9 | text with no '<', no break and no surrounding whitespace is returned unchanged |
| `TextCleanService.CleanTextIdempotent` | Services/TextCleanUpServices/TextCleanService.py:1-9 | cleaning twice is cleaning once |
| `TextCleanService.CleanTextTagAcrossLines` | Services/TextCleanUpServices/TextCleanService.py:4-6 | a tag spanning a newline is removed whole, since tags go before whitespace is rewritten: "x<a\nb>y" becomes "xy" |
| `ServerStatusUI.ShowServersStatus` | Presentation/ServerStatusShow/ServerStatusUI.py:4-56 | the nested loops build exactly `Layout(Blocks(servers))`, and change no server (no modifies clause) |
| `ServerStatusUI.CollectRow` | Presentation/ServerStatusShow/ServerStatusUI.py:24-45 | the inner loop collects the blocks of the next `row_size` servers, or of as many as are left, in list order, and advances the index by that many |
| `ServerStatusUI.DrawRow` | Presentation/ServerStatusShow/ServerStatusUI.py:23-55 | one pass of the outer loop adds exactly the next row's drawing to `result` and moves the index to the start of the following row, or to the end of the list |
| `ServerStatusUI.LayoutDone` | Presentation/ServerStatusShow/ServerStatusUI.py:20-21 | breaking out of the outer loop once the servers run out leaves the whole picture drawn |
| `ServerStatusUI.AppendRow` | Presentation/ServerStatusShow/ServerStatusUI.py:48-55 | the line loop appends one joined line per line index of the tallest block, then an empty line |
| `ServerStatusUI.ServerAscii` | Presentation/ServerStatusShow/ServerStatusUI.py:32-43 | the text the inner loop builds for one server is that server's `Block`: the art, then its id prefix, first word and "<n> faults" centred to width 12 |
| `ServerStatusUI.ServerAsciiIsBlock` | Presentation/ServerStatusShow/ServerStatusUI.py:32-43 | the text built for a server is the art followed by its three info lines centred to the art's width, joined by "\n" |
| `ServerStatusUI.Blocks` | Presentation/ServerStatusShow/ServerStatusUI.py:29-45 | one block per server, in list order |
| `ServerStatusUI.BlockLines` | Presentation/ServerStatusShow/ServerStatusUI.py:6-10 | a block splits into the three art lines and the centred id prefix, first word and "<n> faults" (when the first two hold no line boundary) |
| `ServerStatusUI.ArtWidth` | Presentation/ServerStatusShow/ServerStatusUI.py:38 | the art splits into its three lines and `max_width` is 12 |
| `ServerStatusUI.IdPrefix` | Presentation/ServerStatusShow/ServerStatusUI.py:33 | `id[0:8]` is the prefix of length min(8, len) |
| `ServerStatusUI.FirstWord` | Presentation/ServerStatusShow/ServerStatusUI.py:34 | `name.split(' ')[0]` is the prefix before the first space, or the whole name |
| `ServerStatusUI.Center` | Presentation/ServerStatusShow/ServerStatusUI.py:40 | `center(width)` leaves a text of at least `width` unchanged, otherwise places it at CPython's left margin and pads with spaces to `width` |
| `ServerStatusUI.CenterMargins` | Presentation/ServerStatusShow/ServerStatusUI.py:40 | the margins differ by at most one, and with an even width the left one is half the padding rounded down |
| `ServerStatusUI.CenterNoBoundary` | Presentation/ServerStatusShow/ServerStatusUI.py:40 | centring adds no line boundary |
| `ServerStatusUI.SplitLines` | Presentation/ServerStatusShow/ServerStatusUI.py:38 | `splitlines()` gives lines free of line boundaries, and at least one for a non-empty text |
| `ServerStatusUI.SplitLinesOfJoin` | Presentation/ServerStatusShow/ServerStatusUI.py:39-41 | joining boundary-free lines with "\n" and splitting them again gives the lines back |
| `ServerStatusUI.SplitLinesAppend` | Presentation/ServerStatusShow/ServerStatusUI.py:49-55 | text that ends in "\n" splits independently of what follows it |
| `ServerStatusUI.Join` | Presentation/ServerStatusShow/ServerStatusUI.py:39-53 | `sep.join(parts)` is empty for no parts and the part itself for one (its inverse for "\n" is `SplitLinesOfJoin`) |
| `ServerStatusUI.JoinEnds` | Presentation/ServerStatusShow/ServerStatusUI.py:39-53 | a join of at least one part starts with the first part, ends with the last, and is at least as long as the separators it puts between the parts |
| `ServerStatusUI.Cell` | Presentation/ServerStatusShow/ServerStatusUI.py:51 | what a block contributes to one line of its row is boundary-free: its line or 10 spaces |
| `ServerStatusUI.MaxLines` | Presentation/ServerStatusShow/ServerStatusUI.py:48 | `max_lines` bounds every block's line count and is reached by one of them |
| `ServerStatusUI.RowText` | Presentation/ServerStatusShow/ServerStatusUI.py:50-52 | a row line, the cells joined by two spaces, holds no line boundary |
| `ServerStatusUI.RenderRowLines` | Presentation/ServerStatusShow/ServerStatusUI.py:48-55 | a drawn row splits into one text per line index, then one empty line |
| `ServerStatusUI.UniformRow` | Presentation/ServerStatusShow/ServerStatusUI.py:48-53 | in a row of six-line blocks there are six lines and each shows the matching line of every block |
| `ServerStatusUI.RowStarts` | Presentation/ServerStatusShow/ServerStatusUI.py:13 | the rows start at servers 0, 4, 7 and 9, and the last ends at 10 |
| `ServerStatusUI.RenderedRowsStable` | Presentation/ServerStatusShow/ServerStatusUI.py:19-21 | once the servers run out, later rows add nothing |
| `ServerStatusUI.Layout` | Presentation/ServerStatusShow/ServerStatusUI.py:13-55 | the picture is empty exactly when the fleet is empty |
| `ServerStatusUI.RenderRow` | Presentation/ServerStatusShow/ServerStatusUI.py:48-55 | a drawn row is longer than its tallest block's line count (one "\n" per line) and ends in "\n" |
| `ServerStatusUI.BlockText` | Presentation/ServerStatusShow/ServerStatusUI.py:32-43 | a server's text starts with the art and adds at least 3 × 12 + 2 characters after it: three info lines centred to the art's width 12 and two newlines |
| `ServerStatusUI.LayoutOfTen` | Presentation/ServerStatusShow/ServerStatusUI.py:13-45 | with at least ten servers the rows hold servers 0-3, 4-6, 7-8 and 9, in order |
| `ServerStatusUI.LayoutFirstTen` | Presentation/ServerStatusShow/ServerStatusUI.py:19-27 | servers past the tenth do not change the picture |
| `ServerStatusUI.RenderedRowsPrefix` | Presentation/ServerStatusShow/ServerStatusUI.py:19-27 | the first r rows depend only on the servers before the end of row r |
| `CommentModel.NewComment` | Domain/Models/Comment.py:2-12 | post id, score (default 0) and text (default "") are stored as given |
| `CommentModel.CommentToDict` | Domain/Models/Comment.py:26-30 | `to_dict` has exactly the keys "PostID", "Score", "Text", in that order, without repetition |
| `CommentModel.CommentDictRoundTrip` | Domain/Models/Comment.py:26-30 | each field comes back from its key: `to_dict` loses nothing |
| `CommentModel.CommentDictHasNoPostId` | Domain/Models/Comment.py:27 | the dict has no "PostId" key, because it is spelled "PostID" |
| `Values.ToText` | Domain/Models/Comment.py:20 | `str(v)` inside an f-string: "None" for None, "True"/"False" for a bool, a text as it is, a datetime through `str()`, and an int as a text that `int()` reads back as that int |
| `CommentModel.CommentToString` | Domain/Models/Comment.py:20 | the text starts with "Comment(PostId=" + post id + ", Score=", ends with ", Text=" + text + ")", and its length is exactly the labels' plus the three field texts' |
| `CommentModel.CommentStringRoundTrip` | Domain/Models/Comment.py:20 | with int post id and score, "Comment(PostId=…, Score=…, Text=…)" shows all three fields recoverably, whatever the text holds |
| `UserModel.NewUser` | Domain/Models/User.py:4-37 | every argument is stored as given, except that each date is never falsy: a falsy argument becomes the clock reading |
| `UserModel.UserToDict` | Domain/Models/User.py:51-66 | `to_dict` has the 14 keys Id … AccountId, in order |
| `UserModel.UserKeysDistinct` | Domain/Models/User.py:51-66 | the 14 keys are distinct |
| `UserModel.UserDictRoundTrip` | Domain/Models/User.py:48-66 | every entry is its field, copied verbatim, except CreationDate and LastAccessDate, which go through `serialize_date` |
| `UserModel.NewUserDictDates` | Domain/Models/User.py:26-28 | a constructed user's dict always has both dates; a falsy argument shows as the clock's isoformat text |
| `UserModel.UserToString` | Domain/Models/User.py:40-42 | the text starts with "User(Id: " + id and ends with ", Website: " + website URL + ")" |
| `UserModel.UserStringShowsDictEntries` | Domain/Models/User.py:40-42 | `str(user)` shows Id, DisplayName, Reputation, Location, Views, UpVotes, DownVotes and Website, in that order, as the dict holds them |
| `Values.Truthy` | Domain/Models/User.py:26-28 | a cell is falsy exactly when it is None, False, 0 or the empty text |
| `Values.Or` | Domain/Models/Post.py:37 | `a or b` returns one of its operands, is truthy exactly when either is, and is truthy whenever `b` is |
| `Values.SerializeDate` | Domain/Models/User.py:48-49 | a datetime becomes its isoformat text; anything else, None included, is returned as it is |
| `PostModel.NewPost` | Domain/Models/Post.py:4-55 | every argument is stored as given, except that the creation date is never falsy: a falsy argument becomes the clock reading |
| `PostModel.PostToDict` | Domain/Models/Post.py:75-99 | `to_dict` has the 23 keys Id … ContentLicense, in order |
| `PostModel.PostKeysDistinct` | Domain/Models/Post.py:75-99 | the 23 keys are distinct |
| `PostModel.PostDictRoundTrip` | Domain/Models/Post.py:72-99 | every entry is its field, copied verbatim, except the six dates, which go through `serialize_date` |
| `PostModel.PostDictRoundTripWithoutDates` | Domain/Models/Post.py:72-99 | a post with no datetime fields comes back unchanged from its dict |
| `PostModel.NewPostDictCreationDate` | Domain/Models/Post.py:37 | a constructed post's dict always has a creation date; a falsy argument shows as the clock's isoformat text |

## Left out

- Services/ServerMonitorServices/ServerMonitorService.py: threads, events, timeouts and an endless driver loop. Its line 8 imports `FaultSimulator` from ServerWorkSimulationWithFaultsService.py, which defines only `run_simulation_with_faults`, so that import fails.
- The XML importers, user preprocessing with imputation, scaling and PCA, and Application/MainProgram.py are not part of this model. They are file I/O, floating-point library code and wiring.
- `pick_a_server_fault`, imported at Services/ServerWorkSimulationWithFaultsServices/ServerWorkSimulationWithFaultsService.py:5 from `Services.FaultSimulationServices.FaultPickerService`, is not modelled. The picked fault is a parameter of `RunSimulationWithFaults`.
- `random.seed(datetime.now().timestamp())` and `randint(0, 9)` are not modelled. The drawn index is a parameter constrained to 0..9.
- `uuid.uuid4()` and `datetime.now()` are not modelled. The server id and the clock readings are parameters.
- `isoformat()` and `str()` of a datetime are function parameters.
- The final `print(result)` of `show_servers_status` is left out. The model returns `result`.
- `Post.__str__` is not modelled. It is a 23-field format string, and no other code relies on it.
- Services/DataPreprocessServices/CommentsDataPreprocessService.py:2 imports from `Services.TextCleanUpService`, but the module lives under `Services/TextCleanUpServices`. In Python that import fails before anything runs. The model assumes the import resolves to `clean_text`.
- `Server(naziv, lista)` shares the caller's list object. Later appends through either name are visible through both. The model copies the sequence, so that aliasing is not captured.
- ServerModel.Server.AddFault: the ledger is a `seq<int>`, so an accepted `True` or `False` is stored as 1 or 0. The Python list keeps the bool, which compares equal to 1 or 0.
- PostsPreprocess.PreprocessPosts: when several kept columns are missing, pandas names all of them in one KeyError. The model reports the first missing column only.
- CommentsPreprocess.PreprocessComments: pandas names every missing selected column in one KeyError. The model reports the first missing column only.
- FaultSimulation.FaultId: `int()` of a text is modelled for an optional sign followed by ASCII digits only. Python also accepts surrounding whitespace, underscores and non-ASCII digits, and truncates floats.
- Exception messages are not modelled, only the exception type and, for KeyError, the key.
- Floating-point cells are not modelled beyond pandas' NaN.
- The pandas `SettingWithCopyWarning` that the assignment at Services/DataPreprocessServices/CommentsDataPreprocessService.py:23 may trigger is not modelled. The model treats that assignment as a row-wise map.
- `Comment.__str__` is shown recoverable only for int post ids and scores. For other values it is still modelled exactly (`CommentModel.CommentToString`), but no read-back is claimed.
