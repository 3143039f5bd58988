# agent-orange cue synthesis, modelled in Dafny

agent-orange reads a Pro Tools session text export and turns it into a cue sheet. The export lists the session header, then tracks, then the regions on each track. Each region has a name, a start, a finish and sometimes a status. On the way the program:

- imposes each new region on the regions already on its track;
- blends regions that lie close together;
- interprets the tags written after the last `-` of a region name (`]`, `[[`, `}`, `<<`, `&`, `!`, …), which synthesise new cues;
- lays the tracks out in pages of strips, with a time index for every start and finish.

This project models that core and proves properties of the model. Several copies of the code live side by side in the repository, and the model keeps them apart:

- `trunk/lib`: the original region, track and session classes. Tagging is at track level here.
- `branches/branch_1/lib`: the blender and tag interpreter as classes.
- `releases/1_1_0_tmp/lib/blender.rb`: the nil-guarded blender.
- `ruby/lib` and `trunk/ruby/lib`: the current tag interpreter, session and cue-sheet helpers.

## Modules

- `Base`: digit strings, `to_i` and `to_s`, flattening.
- `Timecode`:
  - the time base is 600 divisions per second, 400 per foot and 25 per film frame;
  - the frame rate comes from the `time_code_format`;
  - `str_to_tc` and `tc_to_str` convert between text and divisions, in footage (`feet+frames`) and in timecode (`hh:mm:ss:ff`);
  - reframing snaps to the grid.
- `Naming`:
  - splitting the tag off a region name (`scan_region_name`, `tag`, `clean_name`, `tag=`);
  - `name_lines` split on the line break;
  - asterisk shading and the name truncation of `trunk/lib`;
  - the legal and hold-open tag lists.
- `Tracks`: a track's regions as a value `TrackState(cells, order)`.
  - `cells` holds the fields of every region object the track ever created, indexed by identity.
  - `order` is the Ruby `@regions` array.
  - Every operation of `Track` and `Region` is a function on this value:
    - `impose!`: delete the contained regions, trim the left neighbour's tail, trim the right neighbour's head, recursively, because each setter re-imposes;
    - the `start=`/`finish=` setters;
    - `create_region`, `add_region` (sorted or appended) and `add_primitive_region`;
    - `update`, `delete_all_regions!` and `reframe!`.
- `TrackObjects`: class `Track` with fields `cells`, `order`, `name` and `channel`. Every method is proved to leave `State()` equal to the corresponding `Tracks` function of the old state.
- `Blending`: class `Blender` of `branches/branch_1/lib/blender.rb`, and the nil-guarded pass of `releases/1_1_0_tmp/lib/blender.rb`, together with the tag callback installed by the tag interpreters.
- `TrunkBlending`: class `TrunkBlender` of `trunk/lib/pt/track.rb` (`should_blend?`, `tag_forces`, `read_tags`, `blend!`) and `Track#blend!`.
- `Interpreting`: `TagInterpreter` of `ruby/lib/tag_interpreter.rb`. It covers zeroing short cues, blending with tags, dropping `!` regions, grouping touching regions into sequences, and synthesising new cues per sequence.
- `BranchInterpreting`: `TagInterpreter` of `branches/branch_1/lib/tag_interpreter.rb`.
- `Sessions`: class `Session` for the three session versions. It covers reading the export rows, adding and renumbering tracks, reframing, tag interpretation over all tracks, and writing the export text back.
- `Cuesheets`: the `Styler` style table, the `Cuesheet` settings, `display_regions` with muted regions hidden, strip pagination and the time indexes, from both `pdf_qs.rb` copies.

Time values are integers in divisions. A session's `blend` (a float in Ruby: 600 divisions in `trunk/ruby/lib`, one second in `trunk/lib` and `branches/branch_1/lib`) and the sample rate are modelled as integers.

I/O is replaced by parameters:

- `read_file` takes the rows already split into cells and stripped;
- `to_text_export` returns the string;
- the PDF drawing is not modelled.

## Model

| member | source | states |
|---|---|---|
| Base.NatToStringDigits | trunk/ruby/lib/pt/session.rb:136 | `to_s` of a natural number is a non-empty digit string whose value is the number |
| Base.Pad2Digits | trunk/lib/pt/region.rb:146 | `%02i` of n is a digit string of value n, exactly two characters when n < 100 |
| Base.ToIOfNatToString | trunk/ruby/lib/pt/session.rb:189 | `to_i` inverts `to_s` on natural numbers |
| Base.DigitRun | trunk/lib/pt/region.rb:124 | the maximal run of digits starting at a position: every character in it is a digit, and it ends at the end of the text or before a non-digit |
| Timecode.TimeBaseConsistent | trunk/lib/pt/region.rb:115-121 | 600 divisions per second; a foot is 2/3 s = 16 film frames of 25 divisions; minutes and hours are 60× |
| Timecode.FrameRateOf | trunk/ruby/lib/pt/session.rb:92-98 | a session without a time code format has no frame rate |
| Timecode.FrameRateOfProToolsNames | trunk/ruby/lib/pt/session.rb:92-98 | "30 Frame" and "29.97 Frame" give 30, "25 Frame" 25, "24 Frame" and "23.976 Frame" 24, and "Film" gives nil |
| Timecode.FootageAt | trunk/lib/pt/region.rb:124 | a match of `(\d+)\+(\d+)` needs a `+` in the text |
| Timecode.FindFootage | trunk/lib/pt/region.rb:124 | the leftmost footage match exists only in text with a `+` |
| Timecode.TimecodeAt | trunk/lib/pt/region.rb:128 | a match of `(\d+):(\d+):(\d+)[:;](\d+)` needs a `:`; its fields are read one `FieldThen` after another |
| Timecode.FieldThen | trunk/lib/pt/region.rb:128 | one field of the timecode pattern: a non-empty digit run followed by a separator, and the position after it |
| Timecode.TimecodeAtSeparators | trunk/lib/pt/region.rb:128 | a timecode match needs three field separators after its start |
| Timecode.NoTimecodeFound | trunk/lib/pt/region.rb:128 | text with fewer than three separators holds no timecode match |
| Timecode.FindTimecode | trunk/lib/pt/region.rb:128 | the leftmost timecode match exists only in text with a `:` |
| Timecode.StrToTc | trunk/lib/pt/region.rb:123-138 | text with neither `+` nor `:` decodes to 0 and keeps the time format; the only failure is a timecode with no frame rate (nil fps); the format switches to footage only on a `+` and to timecode only on a `:` |
| Timecode.TcToStr | trunk/lib/pt/region.rb:140-157 | encoding fails exactly when the format is timecode and the session has no frame rate |
| Timecode.FootageAtJoin | trunk/lib/pt/region.rb:124 | `x+y` with digit strings x and y matches as (value of x, value of y) |
| Timecode.DecodeFootageText | trunk/lib/pt/region.rb:124-127 | `feet+frames` decodes to feet·400 + frames·25 divisions, and the format becomes footage |
| Timecode.TimecodeAtJoin | trunk/lib/pt/region.rb:128 | `h:m:s:f` with digit strings matches as the values of its four fields |
| Timecode.TimecodeTextNoPlus | trunk/lib/pt/region.rb:124 | timecode text holds no `+`, so it is never read as footage |
| Timecode.DecodeTimecodeText | trunk/lib/pt/region.rb:128-133 | `hh:mm:ss:ff` with digit strings and a frame rate decodes to hh·2160000 + mm·36000 + ss·600 + ff·(600 / fps) divisions, and the format becomes timecode |
| Timecode.FootageFirst | trunk/lib/pt/region.rb:124-127 | a footage match at the head of the text takes precedence over any timecode in it |
| Timecode.FootageFields | trunk/lib/pt/region.rb:143-145 | the feet and frame fields of `tc_to_str` put back together give the input rounded down to a film frame |
| Timecode.FootageEncode | trunk/lib/pt/region.rb:142-146 | feet·400 + frames·25 (frames < 16) prints as `feet+ff`, or as `feet'` when frames are not printed |
| Timecode.FootageRoundTrip | trunk/lib/pt/region.rb:123-157 | decoding the printed footage of any non-negative time gives that time rounded down to a film frame, in footage format |
| Timecode.TimecodeEncode | trunk/lib/pt/region.rb:147-155 | a time of h hours, mm minutes, ss seconds and ff frames prints as `mm:ss:ff` (or `mm:ss`): the hours are dropped |
| Timecode.InHourSplit | trunk/lib/pt/region.rb:148-153 | the hour, minute and second arithmetic of `tc_to_str` recovers mm, ss and the rest of the second |
| Timecode.InSecondSplit | trunk/lib/pt/region.rb:154 | the frame arithmetic recovers the frame number |
| Timecode.TimecodeFields | trunk/lib/pt/region.rb:148-154 | the minutes and seconds `tc_to_str` prints are below 60 and the frames below the frame rate |
| Timecode.TimecodeFieldsBounded | trunk/lib/pt/region.rb:148-154 | within the hour the three fields stay below 60, 60 and the frame rate |
| Timecode.PrintedTimecodeText | trunk/lib/pt/region.rb:155 | three two-digit fields joined by `:` hold no `+` and only two separators |
| Timecode.TimecodeNotReread | trunk/lib/pt/region.rb:123-155 | the timecode text `tc_to_str` prints (`mm:ss:ff`) is one field short of the pattern: `str_to_tc` reads it back as 0 and keeps the time format |
| Timecode.ReframeModulus | trunk/lib/pt/region.rb:69 | the reframing grid is positive (a foot in footage format, a second otherwise) |
| Timecode.SnapDown | trunk/lib/pt/region.rb:70 | the new start is the largest grid line at or before the old start |
| Timecode.NextGridLine | trunk/lib/pt/region.rb:71 | off the grid, `t - t % m + m` is the first grid line after t |
| Timecode.SnapUp | trunk/lib/pt/region.rb:71 | the new finish is the smallest grid line at or after the old finish, and a finish on the grid is kept |
| Naming.LastIndexOf | trunk/lib/pt/track.rb:244-248 | the position of the last occurrence of a character, or none when it does not occur |
| Naming.ScanRegionName | trunk/lib/pt/track.rb:244-248 | a name without a tag is returned whole; otherwise clean name + `-` + tag rebuilds the name and the tag holds no `-` |
| Naming.TagSplit | branches/branch_1/lib/pt/region.rb:47-50 | a name has a tag exactly when it contains a `-`; the clean name and tag rebuild it |
| Naming.WithTag | branches/branch_1/lib/pt/region.rb:52-59 | `tag = nil` on an untagged name fails, because `md[1]` is sent to a nil match (`NoMethodOnNil("[]")`); every other assignment succeeds |
| Naming.SetTagRoundTrip | branches/branch_1/lib/pt/region.rb:47-59 | after `tag = s` the tag reads back as s and the clean name is unchanged |
| Naming.ClearTag | branches/branch_1/lib/pt/region.rb:52-59 | `tag = nil` on a tagged name leaves the clean name |
| Naming.FieldsJoin | trunk/lib/pt/region.rb:62 | the fields of a split, joined with the separator, give back the text |
| Naming.FieldsFree | trunk/lib/pt/region.rb:62 | no field contains the separator |
| Naming.DropTrailingEmpty | trunk/lib/pt/region.rb:62 | Ruby `split` drops exactly the trailing empty fields |
| Naming.NameLinesFields | trunk/lib/pt/region.rb:61-65 | `name_lines` is the run of split fields after an optional leading empty one, without trailing empties, and its last line is not empty |
| Naming.NameLinesFree | trunk/lib/pt/region.rb:61-65 | no line of `name_lines` contains the line break |
| Naming.DisplayName | trunk/lib/pt/region.rb:42-48 | the displayed name is never longer than the stored one |
| Naming.DisplayNameDropsStar | trunk/lib/pt/region.rb:42-59 | under asterisk shading a shaded name is shown without its leading `*`; otherwise the name is shown as is; a region is shaded under `:all`, or under `:asterisks` when its name starts with `*` |
| Naming.DisplayNameTruncates | trunk/lib/pt/region.rb:44 | a starred name longer than 257 characters is shown as 256 characters (`[1,256]`) |
| Naming.HoldOpenTagsAreLegal | ruby/lib/tag_interpreter.rb:55-58 | every hold-open tag of the blend callback (line 159) is a legal tag |
| Tracks.EmptyTrack | trunk/lib/pt/track.rb:88-93 | a new track has no regions |
| Tracks.Regions | trunk/lib/pt/track.rb:88-93 | the region list is the listed objects in order |
| Tracks.ExtentUpdate | trunk/lib/pt/track.rb:113-134 | shortening a region never grows the total extent of the listed regions, and shortening a listed one shrinks it; this is why `impose!`'s recursion through the setters ends |
| Tracks.Survivors | trunk/lib/pt/track.rb:115-119 | the regions kept are exactly the imposing region and those not contained in it |
| Tracks.SurvivorsExtent | trunk/lib/pt/track.rb:115-119 | deleting the contained regions never grows the extent |
| Tracks.SurvivorsAll | trunk/lib/pt/track.rb:115-119 | when no region is contained nothing is deleted |
| Tracks.FirstOverlap | trunk/lib/pt/track.rb:121-133 | `find` returns the first region overlapping the given edge, or nothing when none does |
| Tracks.SameLabelsTrans | trunk/lib/pt/track.rb:113-134 | keeping names and statuses is transitive |
| Tracks.ShrinksRefl | trunk/lib/pt/track.rb:113-134 | the imposition order "only deletes and shortens" is reflexive |
| Tracks.ShrinksTrans | trunk/lib/pt/track.rb:113-134 | and transitive |
| Tracks.Overwritten | trunk/lib/pt/track.rb:115-119 | a listed region stays listed exactly when it is the imposing one or is not contained in it; no region's fields change |
| Tracks.TrimShrinks | trunk/lib/pt/track.rb:121-133 | trimming a listed region inside its own span is a shrink that strictly lowers the extent |
| Tracks.Imposed | trunk/lib/pt/track.rb:113-134 | imposition only deletes regions and shortens regions, keeping their names and statuses |
| Tracks.TrimTail | trunk/lib/pt/track.rb:121-126 | trimming the left neighbour is such a shrink |
| Tracks.TrimHead | trunk/lib/pt/track.rb:128-133 | trimming the right neighbour is such a shrink |
| Tracks.ImposeNoop | trunk/lib/pt/track.rb:113-134 | imposing a region that contains, and overlaps, nothing leaves the track as it is |
| Tracks.NoOverlapNoTrim | trunk/lib/pt/track.rb:121-133 | without overlaps neither trim changes anything |
| Tracks.SetStart | trunk/lib/pt/region.rb:75-78 | `start=` writes the start, then re-imposes, which can only shrink the result |
| Tracks.SetFinish | trunk/lib/pt/region.rb:80-83 | `finish=` writes the finish, then re-imposes, which can only shrink the result |
| Tracks.SetName | trunk/lib/pt/region.rb:35-40 | `name=` changes that region's name and nothing else |
| Tracks.SetStartUnlisted | branches/branch_1/lib/pt/track.rb:37-43 | setting the start of a region not yet listed writes its start, keeps it unlisted and only deletes others (imposition) |
| Tracks.SetFinishUnlisted | branches/branch_1/lib/pt/track.rb:37-43 | the same for the finish |
| Tracks.InsertByStart | branches/branch_1/lib/pt/track.rb:41 | inserting by start adds exactly that region to the list |
| Tracks.SortByStart | branches/branch_1/lib/pt/track.rb:41 | `sort!` by start is a permutation |
| Tracks.InsertBounded | branches/branch_1/lib/pt/track.rb:41 | inserting keeps an upper bound on the starts |
| Tracks.InsertSorted | branches/branch_1/lib/pt/track.rb:41 | inserting into a sorted list keeps it sorted |
| Tracks.SortSorted | branches/branch_1/lib/pt/track.rb:41 | `sort!` sorts by start |
| Tracks.SortOfSorted | branches/branch_1/lib/pt/track.rb:41 | sorting a sorted list changes nothing |
| Tracks.Built | branches/branch_1/lib/pt/track.rb:37-43 | building a region creates a fresh object with the given fields, still unlisted, after the setters' impositions on the others |
| Tracks.Fresh | trunk/lib/pt/track.rb:96 | `Region.new` plus `name=` and `status=` adds one unlisted object and lists nothing |
| Tracks.Created | branches/branch_1/lib/pt/track.rb:37-43 | `create_region` lists the new region with its fields, keeps the track sorted by start and adds at most one region |
| Tracks.CreatedLabels | branches/branch_1/lib/pt/track.rb:37-43 | creating a region never renames nor re-statuses another |
| Tracks.ListedSorted | branches/branch_1/lib/pt/track.rb:40-41 | `@regions << r; sort!` lists r once more and sorts |
| Tracks.ListedLast | trunk/lib/pt/track.rb:98 | `@regions << r` appends r |
| Tracks.SortedList | branches/branch_1/lib/pt/track.rb:64 | `sort!` keeps the listed multiset and sorts it |
| Tracks.Appended | trunk/lib/pt/track.rb:102-107 | `add_primitive_region` puts the new region last, after imposition |
| Tracks.Placed | branches/branch_1/lib/pt/track.rb:37-56 | the new region is listed with its fields, sorted (`add_region`) or last (`add_primitive_region`) |
| Tracks.AddRegionText | trunk/lib/pt/track.rb:95-100 | adding a region from text always creates one object, and fails only with a nil frame rate |
| Tracks.AddRegionTimes | trunk/lib/pt/track.rb:95-100 | adding succeeds exactly when both times decode; then the region is placed with the decoded times; on a start failure the object exists with its name only, unlisted; on a finish failure it is unlisted too |
| Tracks.Updated | branches/branch_1/lib/pt/track.rb:62-65 | `update` re-imposes the region and sorts |
| Tracks.AllDeleted | branches/branch_1/lib/pt/track.rb:89-91 | `delete_all_regions!` empties the list and keeps the objects |
| Tracks.CreatedOnEmpty | branches/branch_1/tests/track_test.rb:47-55 | a region created on an empty track is its only region |
| Tracks.AppendedOnEmpty | trunk/lib/pt/track.rb:102-107 | the same for a primitive region |
| Tracks.CreatedClear | branches/branch_1/lib/pt/track.rb:37-43 | creating a region after, and clear of, every sorted region appends it and changes nothing else |
| Tracks.SortedAppend | branches/branch_1/lib/pt/track.rb:40-41 | appending a region that starts after all others keeps the order sorted |
| Tracks.BuiltClear | branches/branch_1/lib/pt/track.rb:37-43 | building a region clear of all others touches nothing else |
| Tracks.StartClear | branches/branch_1/lib/pt/track.rb:37-43 | setting the start of a fresh region clear of all others touches nothing else |
| Tracks.FinishClear | branches/branch_1/lib/pt/track.rb:37-43 | setting the finish of a fresh region clear of all others touches nothing else |
| Tracks.RegionsAppend | trunk/lib/pt/track.rb:105 | the region list after appending is the old list plus the new region |
| Tracks.CreatedAppends | branches/branch_1/lib/pt/track.rb:37-43 | a region created clear of the others is appended to the region list |
| Tracks.EnclosedRegionSurvives | branches/branch_1/lib/pt/track.rb:67-87 | a region strictly inside another does not delete it: both are listed |
| Tracks.TailTrimmed | trunk/lib/pt/track.rb:121-126 | a region overlapping the tail of another trims that one's finish to its start |
| Tracks.TrimmedTailClear | trunk/lib/pt/track.rb:128-133 | once trimmed, the neighbour no longer overlaps the head |
| Tracks.TailTrimmedStep | trunk/lib/pt/track.rb:121-126 | the tail trim alone does the same |
| Tracks.ReframedRegion | trunk/lib/pt/region.rb:67-73 | reframing one region keeps the track well formed and can only delete others |
| Tracks.ReframedFrom | trunk/lib/pt/track.rb:109-111 | reframing every region keeps the track well formed |
| Tracks.ReframeAlone | trunk/lib/pt/region.rb:67-73 | a lone region is snapped out to the grid unless it has zero length |
| Tracks.ReframeAloneStep | trunk/lib/pt/region.rb:67-73 | one reframe step on a lone region does the same |
| Tracks.SetAlone | trunk/lib/pt/region.rb:75-83 | the setters on a lone region only change that field |
| Tracks.BranchReframed | branches/branch_1/lib/pt/region.rb:71-77 | branch_1 `reframe!` succeeds exactly when every region has zero length, and then changes nothing |
| TrackObjects.Track.constructor | trunk/lib/pt/track.rb:88-93 | a new track is empty, named "(blank)", on channel 0 |
| TrackObjects.Track.Impose | trunk/lib/pt/track.rb:113-134 | the new state is `Imposed` of the old one |
| TrackObjects.Track.DeleteContained | trunk/lib/pt/track.rb:115-119 | the `delete_if` step of `impose!` |
| TrackObjects.Track.FindOverlap | trunk/lib/pt/track.rb:121-133 | returns the first overlapping region's index, or the length when none overlaps |
| TrackObjects.Track.Trim | trunk/lib/pt/track.rb:121-133 | a trim writes the field and re-imposes the trimmed region |
| TrackObjects.Track.SetStart | trunk/lib/pt/region.rb:75-78 | the new state is `Tracks.SetStart` of the old one |
| TrackObjects.Track.SetFinish | trunk/lib/pt/region.rb:80-83 | the new state is `Tracks.SetFinish` of the old one |
| TrackObjects.Track.SetName | trunk/lib/pt/region.rb:35-40 | the new state is `Tracks.SetName` of the old one |
| TrackObjects.Track.SetTag | branches/branch_1/lib/pt/region.rb:52-59 | `tag=` renames the region on success and changes nothing on failure |
| TrackObjects.Track.NewRegion | trunk/lib/pt/track.rb:96 | allocates one unlisted region object |
| TrackObjects.Track.SetStartUnlisted | branches/branch_1/lib/pt/track.rb:39 | the setter on a region not yet listed |
| TrackObjects.Track.SetFinishUnlisted | branches/branch_1/lib/pt/track.rb:40 | the setter on a region not yet listed |
| TrackObjects.Track.BuildRegion | branches/branch_1/lib/pt/track.rb:38-41 | the new state is `Built` of the old one |
| TrackObjects.Track.CreateRegion | branches/branch_1/lib/pt/track.rb:37-43 | the new state is `Created` of the old one |
| TrackObjects.Track.ListAndSort | branches/branch_1/lib/pt/track.rb:40-41 | the new state is `ListedSorted` of the old one |
| TrackObjects.Track.AddPrimitiveRegion | trunk/lib/pt/track.rb:102-107 | the new state is `Appended` of the old one |
| TrackObjects.Track.AddRegion | trunk/lib/pt/track.rb:95-100 | the new state and the result are `AddRegionText` of the old state |
| TrackObjects.Track.AddRegionDecoded | trunk/lib/pt/track.rb:95-100 | the new state and the result are `AddRegionTimes` of the old state |
| TrackObjects.Track.List | branches/branch_1/lib/pt/track.rb:40-41 | sorted or appended listing |
| TrackObjects.Track.Update | branches/branch_1/lib/pt/track.rb:62-65 | the new state is `Updated` of the old one |
| TrackObjects.Track.Dup | ruby/lib/tag_interpreter.rb:147 | `dup` is a fresh track with the same state, name and channel |
| TrackObjects.Track.DeleteAllRegions | branches/branch_1/lib/pt/track.rb:89-91 | the new state is `AllDeleted` of the old one |
| TrackObjects.Track.ReframeRegion | trunk/lib/pt/region.rb:67-73 | the new state is `ReframedRegion` of the old one |
| TrackObjects.Track.Reframe | trunk/lib/pt/track.rb:109-111 | the new state is `ReframedFrom` of the old one |
| Blending.ClearBangBang | ruby/lib/tag_interpreter.rb:167-171 | on a `!!` second region: its tag is cleared and the first is closed up to it; the first keeps its name |
| Blending.TagCallback | ruby/lib/tag_interpreter.rb:162-177 | the callback allows a blend exactly when the first tag is not `!`; it keeps the region open exactly on a hold-open first tag, or while already stuck and neither `!` nor `!!` resets it; it changes nothing unless `!!` or holding open |
| Blending.Consult | branches/branch_1/lib/blender.rb:44 | without a test block every pair may blend and nothing changes |
| Blending.BlendPair | branches/branch_1/lib/blender.rb:44-47 | one pair step keeps the track well formed and never adds regions |
| Blending.BranchBlendFrom | branches/branch_1/lib/blender.rb:41-48 | the branch_1 loop fails only on a missing pair (`nil.start`), after regions were deleted below the loop bound |
| Blending.GuardedBlendFrom | releases/1_1_0_tmp/lib/blender.rb:38-50 | the guarded loop keeps the track well formed and never adds regions |
| Blending.GuardedSkipsRest | releases/1_1_0_tmp/lib/blender.rb:43 | once no pair is left the guard skips every remaining step |
| Blending.PassesAgree | releases/1_1_0_tmp/lib/blender.rb:38-50 | the guarded pass does what the branch_1 pass does, and the branch_1 pass raises only on a missing pair after deleting regions |
| Blending.ClearApart | branches/branch_1/lib/blender.rb:45-47 | disjoint positive regions are clear of each other |
| Blending.SeparatedClose | branches/branch_1/lib/blender.rb:46 | on ordered disjoint regions, closing a region up to at most the next start is a plain field write that keeps them ordered and disjoint |
| Blending.RetimedSeparated | branches/branch_1/lib/blender.rb:46 | such a close keeps the track ordered and disjoint |
| Blending.ClosedCell | branches/branch_1/lib/blender.rb:45-47 | the blended region keeps its name and start |
| Blending.NoTestPair | branches/branch_1/lib/blender.rb:44-47 | without a test block a pair is closed exactly when the gap is at most the blend duration |
| Blending.ClosedStep | branches/branch_1/lib/blender.rb:41-48 | each loop step closes the next gap as specified |
| Blending.ClosedFrom | branches/branch_1/lib/blender.rb:41-48 | the loop from any point on ordered disjoint regions raises nothing and closes every gap as specified |
| Blending.SeparatedBlend | branches/branch_1/lib/blender.rb:38-50 | on ordered disjoint regions `blend_track` raises nothing, keeps the list, and sets each region's finish to the next start when the gap is at most the blend duration, keeping it otherwise |
| Blending.ProximityBlend | branches/branch_1/tests/blend_test.rb:40-54 | regions 0–600 and 900–1100 with a 600 blend duration: the first is extended to 900 |
| Blending.ProximityNoBlend | branches/branch_1/tests/blend_test.rb:58-70 | with a 100 blend duration they are left as they are |
| Blending.TagStep | ruby/lib/tag_interpreter.rb:162-177 | on ordered disjoint regions a tagged step closes the pair when the tags force it, or when it is near and the first tag is not `!`; it clears a `!!` tag; it passes on the new stick-open flag |
| Blending.TagPair | branches/branch_1/lib/blender.rb:44-47 | a tagged pair step is the callback followed by the proximity close when allowed |
| Blending.TagCallbackSeparated | ruby/lib/tag_interpreter.rb:162-177 | the callback on ordered disjoint regions closes the first region exactly when forced and de-tags a `!!` second |
| Blending.ClearBangBangSeparated | ruby/lib/tag_interpreter.rb:167-171 | the `!!` branch on ordered disjoint regions |
| Blending.SeparatedNames | ruby/lib/tag_interpreter.rb:169 | renaming keeps a track ordered and disjoint |
| Blending.ClosedAgain | ruby/lib/tag_interpreter.rb:170-174 | closing a region that is already closed changes nothing |
| Blending.Blender.constructor | branches/branch_1/lib/blender.rb:30-35 | a new blender has a 600-division (one second) blend duration and no test |
| Blending.Blender.TestBeforeBlend | branches/branch_1/lib/blender.rb:52-54 | a block is installed only when it takes two arguments |
| Blending.Blender.CallTest | branches/branch_1/lib/blender.rb:44 | calling the test is `Consult` |
| Blending.Blender.RunTagTest | ruby/lib/tag_interpreter.rb:162-177 | running the callback is `TagCallback` |
| Blending.Blender.BlendPairStep | branches/branch_1/lib/blender.rb:44-47 | one step is `BlendPair` |
| Blending.Blender.BlendTrack | branches/branch_1/lib/blender.rb:38-50 | the loop computes `BranchBlend` |
| Blending.Blender.BlendTrackGuarded | releases/1_1_0_tmp/lib/blender.rb:38-50 | the loop computes `GuardedBlend` |
| TrunkBlending.TagForces | trunk/lib/pt/track.rb:63-66 | `tag_forces` records its answer as the active flag and changes nothing else |
| TrunkBlending.ShouldBlend | trunk/lib/pt/track.rb:51-57 | `should_blend?` changes only the active flag |
| TrunkBlending.ReadTags | trunk/lib/pt/track.rb:68-78 | `read_tags` never touches the track |
| TrunkBlending.TrunkStep | trunk/lib/pt/track.rb:41-45 | a blend step keeps the track well formed, adds nothing and keeps names and statuses |
| TrunkBlending.Close2 | trunk/lib/pt/track.rb:43 | closing the first region up to the second keeps names and statuses |
| TrunkBlending.TrunkBlendFrom | trunk/lib/pt/track.rb:38-47 | the blend loop keeps the track well formed and the labels |
| TrunkBlending.PlainStep | trunk/lib/pt/track.rb:43-61 | without tag interpretation a step closes the pair exactly when it is closer than the duration |
| TrunkBlending.PlainFrom | trunk/lib/pt/track.rb:38-47 | an independent reference definition of the untagged pass |
| TrunkBlending.TrunkPlainFrom | trunk/lib/pt/track.rb:38-47 | the trunk loop without tags is the reference pass |
| TrunkBlending.BranchPlainFrom | branches/branch_1/lib/blender.rb:38-50 | the branch_1 loop without a test is the same reference pass (its `<=` with duration − 1 is trunk's `<`) |
| TrunkBlending.PlainPass | trunk/lib/pt/track.rb:38-61 | trunk's untagged `blend!` and branch_1's `blend_track` give the same track and the same failure |
| TrunkBlending.TagRules | trunk/lib/pt/track.rb:51-78 | with tags: a pair blends when close, when a blend is active or when the first tag is a blend tag; the active flag is reset by `!!` and `!`; `!` zeroes the duration and remembers it; a remembered duration comes back after the next gap |
| TrunkBlending.ScanTag | trunk/lib/pt/track.rb:244-248 | `scan_region_name` finds the same tag as the corrected `Region#tag` |
| TrunkBlending.AsWrittenTagsRaise | trunk/lib/pt/track.rb:63-77 | with tags on and two or more regions, `blend!` raises because `Region#tag` is undefined in `trunk/lib` |
| TrunkBlending.TrackBlend | trunk/lib/pt/track.rb:136-145 | `Track#blend!` keeps the track well formed and the labels |
| TrunkBlending.AsWrittenDefaultRaises | trunk/lib/pt/track.rb:139 | without a duration, `Track#blend!` raises because `Region.divs_per_second` is private to instances |
| TrunkBlending.CorrectedDefaultDuration | trunk/lib/pt/track.rb:136-145 | corrected: the default duration is the session's blend in seconds times 600 |
| TrunkBlending.InterpretTagging | trunk/lib/pt/track.rb:147-242 | `interpret_tagging!` keeps labels, and as written it raises before changing anything |
| TrunkBlending.TrunkBlender.constructor | trunk/lib/pt/track.rb:31-36 | a new blender holds its track, duration, flag and Region class, inactive, with no memo |
| TrunkBlending.TrunkBlender.TagForcesBlend | trunk/lib/pt/track.rb:63-66 | the method computes `TagForces` for its Region class, raising where `region.tag` does |
| TrunkBlending.TrunkBlender.ShouldBlendPair | trunk/lib/pt/track.rb:51-57 | the method computes `ShouldBlend` for its Region class |
| TrunkBlending.TrunkBlender.ReadTagsOf | trunk/lib/pt/track.rb:68-78 | the method computes `ReadTags` for its Region class, raising where `region.tag` does |
| TrunkBlending.TrunkBlender.Step | trunk/lib/pt/track.rb:42-44 | one iteration computes `TrunkStep`, including its exception |
| TrunkBlending.TrunkBlender.Blend | trunk/lib/pt/track.rb:37-46 | clears the flag and the saved duration, then runs `size - 1` steps: the result is `TrunkBlend`, stopping at the first step that raises |
| TrunkBlending.TrunkBlender.BlendPairs | trunk/lib/pt/track.rb:40-44 | the `times` loop over the first n pairs computes `TrunkBlendFrom` from pair 0, stopping at the first step that raises and raising `start` on nil when a pair has no second region |
| TrunkBlending.BlendTrack | trunk/lib/pt/track.rb:136-145 | `Track#blend!` computes `TrackBlend` for the given Region class: as written, without a duration it raises at `Region.divs_per_second` and changes nothing |
| Interpreting.ZeroShortFrom | ruby/lib/tag_interpreter.rb:139-141 | zeroing short cues keeps the track well formed |
| Interpreting.ZeroShortOne | ruby/lib/tag_interpreter.rb:140 | one zeroing step is the first step of the loop |
| Interpreting.ZeroShortNothingShort | ruby/lib/tag_interpreter.rb:139-141 | when nothing is shorter than the minimum nothing changes |
| Interpreting.ZeroRetimed | ruby/lib/tag_interpreter.rb:140 | zeroing one region of an ascending track only sets its finish to its start |
| Interpreting.ZeroStep | ruby/lib/tag_interpreter.rb:139-141 | each step zeroes the next region exactly when it is short |
| Interpreting.ZeroShortAscending | ruby/lib/tag_interpreter.rb:139-141 | on an ascending track every region shorter than the minimum gets finish = start and every other region is kept |
| Interpreting.Unbanged | ruby/lib/tag_interpreter.rb:181-183 | `delete_if` keeps exactly the regions whose tag is not `!` |
| Interpreting.DroppedBang | ruby/lib/tag_interpreter.rb:181-183 | dropping them keeps every region object |
| Interpreting.Sequences | ruby/lib/tag_interpreter.rb:40-49 | every sequence is non-empty, there are none exactly for an empty track, and the only failure is `nil << region` |
| Interpreting.SequencesRuns | ruby/lib/tag_interpreter.rb:40-49 | grouping succeeds exactly when the track is empty or starts after −1; then the sequences flatten to the track, touching regions share a sequence and apart ones do not |
| Interpreting.CaseWhole | ruby/lib/tag_interpreter.rb:74-75 | `]`, `]]` and `[[` (and branch_1's `[`) copy the region whole |
| Interpreting.CaseZeroLength | ruby/lib/tag_interpreter.rb:77-92 | `[`, `{` and `<` give zero-length cues |
| Interpreting.CaseBrace | ruby/lib/tag_interpreter.rb:80-81 | `}` and `}}` (and, corrected, `{{`) run from the curly start |
| Interpreting.CaseAngle | ruby/lib/tag_interpreter.rb:86-92 | `>`, `>>`, `<<` and `<` are preceded by a Fill |
| Interpreting.CaseJoin | ruby/lib/tag_interpreter.rb:94-100 | `&` joins |
| Interpreting.CaseNone | ruby/lib/tag_interpreter.rb:73-102 | `!`, `!!` and, as written, `{{` have no arm |
| Interpreting.Open | ruby/lib/tag_interpreter.rb:75 | `add_primitive_region` makes the new region the open one, with the given fields |
| Interpreting.Filled | ruby/lib/tag_interpreter.rb:87 | the Fill is added only when no region is open |
| Interpreting.Joined | ruby/lib/tag_interpreter.rb:96-97 | a join only changes the open region |
| Interpreting.Extended | ruby/lib/tag_interpreter.rb:107 | extending only changes the open region |
| Interpreting.TagsCount | ruby/lib/tag_interpreter.rb:63-65 | the count is zero exactly when no region carries a legal tag |
| Interpreting.StepTagged | ruby/lib/tag_interpreter.rb:70-103 | a tagged region is shaped by its case arm, and the sequence start moves to its finish |
| Interpreting.ShapedOpens | ruby/lib/tag_interpreter.rb:73-102 | every arm opens one new region with the arm's start and finish, plus a Fill for the fill arms when nothing is open |
| Interpreting.StepOpens | ruby/lib/tag_interpreter.rb:70-103 | the same for a whole step |
| Interpreting.ShapedFill | ruby/lib/tag_interpreter.rb:87-91 | the Fill comes first |
| Interpreting.JoinedRenames | ruby/lib/tag_interpreter.rb:96 | `&` renames the open region to its clean name, a space and the new clean name |
| Interpreting.BracketTags | ruby/lib/tag_interpreter.rb:74-75 | `]`, `]]`, `[[` add the region with its own start and finish |
| Interpreting.ZeroLengthTags | ruby/lib/tag_interpreter.rb:77-92 | `[` and `<` add a zero-length cue at the region start; `{` adds one at the sequence start |
| Interpreting.BraceTags | ruby/lib/tag_interpreter.rb:80-81 | `}`-type tags add a cue from the curly start to the region finish |
| Interpreting.AngleTags | ruby/lib/tag_interpreter.rb:86-92 | angle tags add a Fill from the sequence start when nothing is open, then the cue |
| Interpreting.AmpersandJoins | ruby/lib/tag_interpreter.rb:95-97 | `&` with an open region renames it and extends it to the region finish, adding nothing |
| Interpreting.AmpersandOpens | ruby/lib/tag_interpreter.rb:98-99 | `&` with nothing open adds a cue from the curly start |
| Interpreting.UntaggedInTagged | ruby/lib/tag_interpreter.rb:105-111 | an untagged region in a tagged sequence extends the open region, or is ignored when none is open |
| Interpreting.NoArm | ruby/lib/tag_interpreter.rb:73-103 | a legal tag without an arm only moves the sequence start |
| Interpreting.BraceAsWritten | ruby/lib/tag_interpreter.rb:80 | as written, `{{` adds nothing while `}}` adds a cue |
| Interpreting.BraceCorrected | ruby/lib/tag_interpreter.rb:80 | corrected, `{{` and `}}` act alike |
| Interpreting.CollapseFrom | ruby/lib/tag_interpreter.rb:112-118 | in an untagged sequence every later region extends the first |
| Interpreting.Collapse | ruby/lib/tag_interpreter.rb:112-118 | an untagged sequence becomes one cue from its first start to its last finish, named by the first clean name |
| Interpreting.CollapseTrack | ruby/lib/tag_interpreter.rb:112-118 | and is appended to the output track |
| Interpreting.SeqIntoFirst | ruby/lib/tag_interpreter.rb:60-67 | the pass starts at the first region's start with nothing open |
| Interpreting.CollapseFirst | ruby/lib/tag_interpreter.rb:116 | the first untagged region opens a copy of itself |
| Interpreting.InterpretOne | ruby/lib/tag_interpreter.rb:136-155 | a track of one region that is not short, not `!` and starts after −1 is interpreted as one sequence holding that region |
| Interpreting.AtStartStep | ruby/lib/tag_interpreter.rb:77-78 | a sequence of one `[` region lists exactly one cue, of zero length at the region's start, with its clean name and status |
| Interpreting.BracketOpenExample | ruby/tests/tagging_tests.rb:130-140 | `test 1-[` from 45+0 to 51+0, blended with duration 2, becomes the one cue `test 1` of zero length at 45+0 |
| Interpreting.Interpret | ruby/lib/tag_interpreter.rb:136-155 | with the tag table as written (no `{{` arm): after interpretation no `!` region remains in the input track, and interpretation fails exactly when its first region starts at or before −1 (`nil << region`) |
| Interpreting.ZeroShortCues | ruby/lib/tag_interpreter.rb:139-141 | the loop computes `ZeroShortFrom` |
| Interpreting.DeleteBangs | ruby/lib/tag_interpreter.rb:181-183 | the loop computes `DroppedBang` |
| Interpreting.ArrayFromTrack | ruby/lib/tag_interpreter.rb:40-49 | the loop computes `Sequences` |
| Interpreting.ShapeInto | ruby/lib/tag_interpreter.rb:73-102 | the case arms on a track object compute `Shaped` |
| Interpreting.StepInto | ruby/lib/tag_interpreter.rb:67-120 | one region's step computes `Step` |
| Interpreting.TaggedRegionsInto | ruby/lib/tag_interpreter.rb:54-121 | `tagged_regions_into` computes `SeqInto` |
| Interpreting.AllSequencesInto | ruby/lib/tag_interpreter.rb:150-152 | the sequence loop computes `AllInto` |
| Interpreting.TagInterpreter.constructor | ruby/lib/tag_interpreter.rb:129-134 | a new interpreter has a default blender and a zero minimum cue duration |
| Interpreting.TagInterpreter.BlendWithTags | ruby/lib/tag_interpreter.rb:158-185 | blends with the tag callback on the guarded blender, then drops `!` regions |
| Interpreting.TagInterpreter.InterpretTrack | ruby/lib/tag_interpreter.rb:136-155 | leaves the input track as `Interpret` says and returns a fresh track with its output, or its failure |
| BranchInterpreting.BranchInterpret | branches/branch_1/lib/tag_interpreter.rb:39-93 | when the blend raises nothing, interpretation succeeds exactly when no region is left after the `!` deletion, and then gives the emptied copy; otherwise it raises `<<` on nil when the first region starts at or before −1, and `clean_name` (undefined on branch_1's Region) on the first region otherwise |
| BranchInterpreting.BranchInterpretCorrected | branches/branch_1/lib/tag_interpreter.rb:39-147 | with `clean_name` read as in `tag_match_data` and branch_1's table as written (no `{{` arm): no `!` region is left; when the blend raises nothing, interpretation fails exactly when the first region starts at or before −1 |
| BranchInterpreting.CleanNameParts | branches/branch_1/lib/tag_interpreter.rb:84-93 | the as-written and corrected readings have the same blended input and raise alike; they differ exactly on tracks with a region left, where the code as written raises `clean_name` |
| BranchInterpreting.CleanNameRaisesOnOneRegion | branches/branch_1/lib/tag_interpreter.rb:93 | one untagged region `a` on [0, 600]: as written the track raises `clean_name`, corrected it interprets |
| BranchInterpreting.TablesAgree | branches/branch_1/lib/tag_interpreter.rb:98-125 | the two case tables agree on every tag except `[`, `{` and `<` |
| BranchInterpreting.DialectsAgree | branches/branch_1/lib/tag_interpreter.rb:84-144 | on other tags and status-less regions a step of branch_1 is a step of the current interpreter |
| BranchInterpreting.TagInterpreter.constructor | branches/branch_1/lib/tag_interpreter.rb:33-37 | a new interpreter has a default blender |
| BranchInterpreting.TagInterpreter.InterpretTrack | branches/branch_1/lib/tag_interpreter.rb:39-93 | computes `BranchInterpret` on the track objects: the input track is blended and loses its `!` regions in place, and the method raises `clean_name` as soon as a sequence is left |
| Sessions.AddedTrack | trunk/ruby/lib/pt/session.rb:133-139 | `add_track` appends one empty track numbered by its position from 1, named by the argument unless it is the empty string |
| Sessions.AddedTrackNumbered | trunk/ruby/lib/pt/session.rb:133-139 | adding keeps the tracks numbered 1, 2, … |
| Sessions.AutomaticNamesDiffer | trunk/ruby/lib/pt/session.rb:135 | automatic names `A<n>` of different tracks differ |
| Sessions.Renumbered | trunk/ruby/lib/pt/session.rb:103-108 | renumbering from n numbers the tracks n, n+1, … and keeps names and regions |
| Sessions.RenumberedKeeps | trunk/ruby/lib/pt/session.rb:103-108 | renumbering changes nothing exactly when the tracks are already numbered so |
| Sessions.FindIndex | trunk/ruby/lib/pt/session.rb:196 | `find_index` gives the first matching cell, or nil when none matches |
| Sessions.RowStatus | trunk/ruby/lib/pt/session.rb:202-209 | a row is skipped exactly in `trunk/ruby` with a status column reading "Muted" |
| Sessions.RegionRow | trunk/ruby/lib/pt/session.rb:198-210 | a region row never adds or renames tracks and leaves the header alone |
| Sessions.RegionAdded | trunk/ruby/lib/pt/session.rb:204 | adding a region to a track keeps the tracks and the header |
| Sessions.WithRegions | trunk/ruby/lib/pt/session.rb:204 | replacing one track's regions changes that track only |
| Sessions.ReadRow | trunk/ruby/lib/pt/session.rb:177-214 | a `TRACK NAME:` row adds a track; every other row keeps the tracks and their names; a missing value reads as `nil.to_f` / `nil.to_i` = 0 |
| Sessions.BlankRowEndsReading | trunk/ruby/lib/pt/session.rb:211-212 | a row without cells (`row[0]` nil) ends reading and changes nothing else |
| Sessions.BlankLineKeepsReading | trunk/ruby/lib/pt/session.rb:154-156 | a blank line parses to one empty cell, which no `when` matches: nothing changes and reading goes on |
| Sessions.ValuelessHeaderRows | trunk/ruby/lib/pt/session.rb:184-189 | without a value the sample rate and the file count become 0 and reading goes on, the bit depth raises at `nil[0..1]`, and trunk/lib ignores the three rows |
| Sessions.TrackNameRowAdds | trunk/ruby/lib/pt/session.rb:190-191 | a `TRACK NAME:` row adds the named track and makes it current |
| Sessions.ChannelRowStartsReading | trunk/ruby/lib/pt/session.rb:193-196 | a `CHANNEL` row starts reading when a track is current and the next cell is EVENT; `trunk/ruby` takes the STATE column from it |
| Sessions.RegionRowIgnored | trunk/ruby/lib/pt/session.rb:198-199 | a region row outside reading mode is ignored |
| Sessions.MutedRowSkipped | trunk/ruby/lib/pt/session.rb:204 | a muted region row is skipped |
| Sessions.RegionRowAdds | trunk/ruby/lib/pt/session.rb:198-210 | any other region row adds the region to the current track from its name, times and status, and fails exactly when adding it fails |
| Sessions.NamelessRowRaises | trunk/ruby/lib/pt/session.rb:200 | a region row without a name cell raises (`nil.strip`) |
| Sessions.ReadRows | trunk/ruby/lib/pt/session.rb:177-214 | reading never removes tracks |
| Sessions.ReadRowNumbered | trunk/ruby/lib/pt/session.rb:177-214 | each row keeps the tracks numbered 1, 2, … |
| Sessions.ReadRowsNumbered | trunk/ruby/lib/pt/session.rb:150-215 | reading a whole file keeps the tracks numbered 1, 2, … |
| Sessions.AudioRegionsAreDisplayRegions | trunk/ruby/lib/pt/session.rb:86-88 | `audio_regions` (reversed track order) holds the same regions as `display_regions` (track order) |
| Sessions.DisplayRegionsAppend | ruby/lib/pdf_qs.rb:155 | the display regions of two groups of tracks are concatenated |
| Sessions.TextExport | trunk/ruby/lib/pt/session.rb:219-245 | trunk/lib, whose Session has no `to_text_export`, raises; elsewhere the export fails exactly in timecode format with no frame rate and at least one region, with the nil-fps error |
| Sessions.RowsTextAppend | trunk/ruby/lib/pt/session.rb:219-245 | the text of two row blocks is concatenated |
| Sessions.TracksRowsLength | trunk/ruby/lib/pt/session.rb:232-241 | the track listing has five lines per track plus one per region |
| Sessions.TrackRowsEvents | trunk/ruby/lib/pt/session.rb:231-240 | a track listing opens with its name and the column heads, and its j-th region is event j + 1 on channel 1 with that region's name and times |
| Sessions.ExportRowsLength | trunk/ruby/lib/pt/session.rb:219-245 | the export has ten header lines, five per track and one per region |
| Sessions.DisplayRegionsEmpty | trunk/ruby/lib/pt/session.rb:86-88 | there are no regions exactly when no track lists one |
| Sessions.RegionCountZero | trunk/ruby/lib/pt/session.rb:226 | the region count in the header is zero exactly when no track lists a region |
| Sessions.Outcomes | trunk/ruby/lib/pt/session.rb:123 | one interpretation result per track, each `Interpret` with the table as written |
| Sessions.OutcomeAt | trunk/ruby/lib/pt/session.rb:123 | the result for track j is the interpretation of track j |
| Sessions.FirstFailure | trunk/ruby/lib/pt/session.rb:123 | the first failing track, or the end when none fails |
| Sessions.TaggedByOutcomes | trunk/ruby/lib/pt/session.rb:118-128 | interpretation keeps the number of tracks and their names |
| Sessions.TaggedByOutcomesSucceeds | trunk/ruby/lib/pt/session.rb:118-128 | it succeeds exactly when every track's interpretation does, and then each track holds its interpreted regions |
| Sessions.TaggedByOutcomesFails | trunk/ruby/lib/pt/session.rb:125-126 | on a failure the first failing track's error is raised with the session title, before any track is replaced |
| Sessions.TrackTaggingAt | trunk/lib/pt/session.rb:55-58 | the result for track j is its `interpret_tagging!` against the given Region class |
| Sessions.TaggedByResults | trunk/lib/pt/session.rb:55-58 | tagging in place keeps the number of tracks and their names |
| Sessions.TaggedByResultsSucceeds | trunk/lib/pt/session.rb:55-58 | in place, it succeeds exactly when every track's tagging does, and then each track holds its result |
| Sessions.TaggedByResultsFails | trunk/lib/pt/session.rb:55-58 | on a failure, the tracks before the first failing one are tagged and the rest are unchanged |
| Sessions.Tagged | trunk/ruby/lib/pt/session.rb:118-128 | interpretation in every version keeps the number of tracks; each version runs its own code as written |
| Sessions.TrunkLibTaggingRaises | trunk/lib/pt/session.rb:55-58 | as written, trunk/lib's `interpret_tagging!` raises at `Region.divs_per_second` on the first track and changes no track |
| Sessions.ReframedTracks | trunk/ruby/lib/pt/session.rb:111-114 | reframing keeps the number of tracks |
| Sessions.Session.constructor | trunk/ruby/lib/pt/session.rb:73-82 | the initial title, sample rate, bit depth, time code format, footage format, printed frames and blend of each version |
| Sessions.Session.Fps | trunk/ruby/lib/pt/session.rb:92-98 | the frame rate is read from the time code format |
| Sessions.Session.FinishTimeFontSize | trunk/lib/pt/session.rb:132-134 | the finish font size is the cue font size |
| Sessions.Session.ShownRegions | trunk/lib/pt/session.rb:124-126 | the shown regions are the audio regions, counted as in the header |
| Sessions.Session.AddTrack | trunk/ruby/lib/pt/session.rb:133-139 | the tracks become `AddedTrack` of the old ones, the new index is returned, and the header and settings are kept |
| Sessions.Session.RenumberTracksFrom | trunk/ruby/lib/pt/session.rb:103-108 | in trunk/ruby the tracks become `Renumbered`; the other versions define no `renumber_tracks_from`, so the call raises and changes nothing |
| Sessions.Session.Reframe | trunk/ruby/lib/pt/session.rb:111-114 | trunk/ruby and trunk/lib: the tracks are reframed, `print_frames` becomes false and nothing is raised; branch_1 (its `reframe!` at branches/branch_1/lib/pt/session.rb:56-59): the tracks never change, the result is `BranchReframedTracks`, and `print_frames` becomes false only when nothing was raised |
| Sessions.BranchReframedTracks | branches/branch_1/lib/pt/session.rb:56-59 | branch_1's `reframe!` over the tracks raises nothing exactly when every track's `Track#reframe!` succeeds, and otherwise raises the NameError for `divs_per_foot` (footage) or `divs_per_second` |
| Sessions.BranchReframeRaisesOnFootage | branches/branch_1/lib/pt/region.rb:71-77 | a footage session with one region [0, 500] raises on `divs_per_foot` |
| Sessions.Session.AddRegionTo | trunk/ruby/lib/pt/session.rb:204 | the method computes `RegionAdded` |
| Sessions.Session.ReadRegionRow | trunk/ruby/lib/pt/session.rb:198-210 | the method computes `RegionRow` |
| Sessions.Session.ReadRowStep | trunk/ruby/lib/pt/session.rb:177-214 | the method computes `ReadRow` |
| Sessions.Session.ReadFile | trunk/ruby/lib/pt/session.rb:150-215 | the method computes `ReadRows` from the start state |
| Sessions.Session.InterpretTagging | trunk/ruby/lib/pt/session.rb:118-128 | the tracks and the failure are `Tagged`, the code of the session's version as written |
| Sessions.Session.ToTextExport | trunk/ruby/lib/pt/session.rb:219-245 | the method computes `TextExport` |
| Sessions.TagTrackAt | trunk/lib/pt/session.rb:57 | one track's tagging against the given Region class |
| Sessions.TagEachTrack | trunk/lib/pt/session.rb:55-58 | the loop computes `TaggedInPlace` for the given Region class (the session passes the class as written) |
| Sessions.TrackText | trunk/ruby/lib/pt/session.rb:233-240 | one track's listing fails exactly in timecode format without a frame rate when it has regions |
| Sessions.TracksText | trunk/ruby/lib/pt/session.rb:230-242 | the listing loop fails exactly in timecode format without a frame rate when some track has a region, and otherwise gives the text of every track's rows |
| Sessions.ExportText | trunk/ruby/lib/pt/session.rb:219-245 | the whole export loop computes `TextExport` |
| Cuesheets.StylesListed | ruby/lib/pdf_qs.rb:86-88 | the style and attribute names of each version are those listed |
| Cuesheets.Store | ruby/lib/pdf_qs.rb:105 | a stored attribute reads back |
| Cuesheets.StoreOthers | ruby/lib/pdf_qs.rb:105 | storing leaves the other attributes alone |
| Cuesheets.WithAttrs | ruby/lib/pdf_qs.rb:105 | a style's attributes read back |
| Cuesheets.WithAttrsOthers | ruby/lib/pdf_qs.rb:105 | the other styles are left alone |
| Cuesheets.StoredMeaning | ruby/lib/pdf_qs.rb:103-106 | after a hash is stored, a permitted key holds the hash's last value for it; other keys keep their old values |
| Cuesheets.SetThenGet | ruby/lib/pdf_qs.rb:101-111 | a truthy value set on a style reads back; false falls back to the default style |
| Cuesheets.SetLeavesOthers | ruby/lib/pdf_qs.rb:101-111 | setting a style leaves other styles' lookups alone, unless it is the default |
| Cuesheets.SetDefaultThenGet | ruby/lib/pdf_qs.rb:106-108 | a style without its own value reads the default's value |
| Cuesheets.Styler.constructor | ruby/lib/pdf_qs.rb:90-99 | the initial style table |
| Cuesheets.Styler.Set | ruby/lib/pdf_qs.rb:101-106 | setting computes `SetStyle` |
| Cuesheets.Styler.Get | ruby/lib/pdf_qs.rb:106-110 | getting computes `StyleValue` |
| Cuesheets.StylerSetExample | releases/1_0_0/tests/styler_test.rb:34-50 | the values set for default and title read back |
| Cuesheets.StylerDefaultExample | releases/1_0_0/tests/styler_test.rb:52-59 | a title without a face reads the default face |
| Cuesheets.RubySheetSizes | ruby/lib/pdf_qs.rb:130-143 | the cue sheet's font sizes per style |
| Cuesheets.RubySheetFlags | ruby/lib/pdf_qs.rb:130-143 | its bold, italic, shading and face settings |
| Cuesheets.SetRubyHeaders | ruby/lib/pdf_qs.rb:130-136 | the header styles block |
| Cuesheets.SetRubyTimes | ruby/lib/pdf_qs.rb:137-143 | the time styles block |
| Cuesheets.SheetStyler | ruby/lib/pdf_qs.rb:125-148 | the styler a cue sheet starts with |
| Cuesheets.HideMutedDropsUnmuted | ruby/lib/pdf_qs.rb:156-158 | as written, hiding drops an Unmuted region and keeps a Muted one |
| Cuesheets.ShownAsWritten | ruby/lib/pdf_qs.rb:154-161 | as written: when hiding, exactly the regions whose status is not `'Unmuted'` are kept |
| Cuesheets.ShownAsWrittenAll | ruby/lib/pdf_qs.rb:154-161 | as written, without hiding every region is shown, in order |
| Cuesheets.Shown | ruby/lib/pdf_qs.rb:154-161 | corrected: exactly the regions not hidden as muted are shown |
| Cuesheets.ShownAll | ruby/lib/pdf_qs.rb:154-161 | without hiding every region is shown, in order |
| Cuesheets.DivMod | ruby/lib/pdf_qs.rb:262 | Ruby `divmod` floors: the remainder takes the divisor's sign |
| Cuesheets.ChunksFlatten | ruby/lib/pdf_qs.rb:261-267 | the pages hold every strip, in order |
| Cuesheets.ChunksSizes | ruby/lib/pdf_qs.rb:261-267 | every page but the last is full, and the last is non-empty |
| Cuesheets.ChunksCount | ruby/lib/pdf_qs.rb:262-263 | the page count is the quotient, plus one for a remainder |
| Cuesheets.DivModShift | ruby/lib/pdf_qs.rb:262 | one more page of strips raises the quotient by one |
| Cuesheets.DivModUnique | ruby/lib/pdf_qs.rb:262 | quotient and remainder are unique |
| Cuesheets.ChunkAt | ruby/lib/pdf_qs.rb:265-267 | page i is the slice of strips from `strips_per_page * i` |
| Cuesheets.DefaultOnePage | ruby/lib/pdf_qs.rb:127 | by default all strips are on one page, and an empty session divides by zero |
| Cuesheets.StripPages | ruby/lib/pdf_qs.rb:261-267 | the pagination loop computes `Paged` |
| Cuesheets.PagedStrips | ruby/lib/pdf_qs.rb:261-267 | with a positive page size pagination succeeds, keeps every strip in order, and makes full pages except a non-empty last one |
| Cuesheets.Insert | ruby/lib/pdf_qs.rb:278 | inserting into a strictly sorted list keeps it strictly sorted, with the new element |
| Cuesheets.SortedCons | ruby/lib/pdf_qs.rb:278 | a smaller head keeps a list strictly sorted |
| Cuesheets.SortedUnique | ruby/lib/pdf_qs.rb:278 | `uniq.sort` is strictly sorted with the same elements |
| Cuesheets.StrictlySortedUnique | ruby/lib/pdf_qs.rb:278 | a strictly sorted list is determined by its elements |
| Cuesheets.TimePoints | ruby/lib/pdf_qs.rb:275-277 | the collected times are exactly the starts and finishes |
| Cuesheets.TimeIndexes | ruby/lib/pdf_qs.rb:275-278 | the time indexes are strictly sorted and are exactly the starts and finishes of the shown regions |
| Cuesheets.TimeIndexesCanonical | ruby/lib/pdf_qs.rb:275-278 | any strictly sorted list of exactly those times is the time index list |
| Cuesheets.Cuesheet.constructor | ruby/lib/pdf_qs.rb:125-148 | the initial settings of each version |
| Cuesheets.Cuesheet.PrepareToPrint | ruby/lib/pdf_qs.rb:175-181 | `ruby/lib` takes the font sizes from the styles and fixes orientation, minimum cue length, shading and proportionality; branch_1 changes nothing here |
| Cuesheets.Cuesheet.DisplayedRegions | ruby/lib/pdf_qs.rb:154-161 | the displayed regions are the track regions, less those with status `'Unmuted'` when a ruby/lib sheet hides muted regions, as the code is written |
| Cuesheets.Cuesheet.StripsOfPages | ruby/lib/pdf_qs.rb:261-267 | the pages are `Paged` of the tracks |

## Left out

- Reading files and detecting line endings (`trunk/ruby/lib/pt/session.rb:158-173`) is left out. `read_file` takes rows already split on tabs and stripped.
- PDF drawing (`pdf_for_session`, `cue_height`, `draw_*`, `toplines` positions, `strip_width = margin_width / strips_per_page`) is floating-point layout. The model keeps only the pagination and the time indexes it computes.
- `init_for_printing` of `branches/branch_1/lib/pdf_qs.rb:26-31` only sets drawing defaults, so it is not modelled.
- `decamelize!` calls a region method that lives outside the modelled files.
- branch_1 `Session#interpret_tagging!` calls `Track#interpret_tagging!`, which branch_1's track does not define. The model raises NoMethodError on the first track and changes no track (`Sessions.Tagged`). The branch_1 tag interpreter is modelled on its own (`BranchInterpreting`).
- `ruby/lib/tag_interpreter.rb` requires `blender`, and `ruby/lib/blender.rb` is not part of this model. `Interpreting` uses the nil-guarded blender of `releases/1_1_0_tmp/lib/blender.rb` in its place.
- `trunk/ruby/lib/pt/region.rb` is not part of this model. Its `Region.divs_per_second` is taken to be 600, as in the other copies.
- The `trunk/ruby/lib` session's `collect` is modelled through the list of per-track outcomes. The re-raised exception is modelled as the failure plus the session title. The backtrace is left out.
- `ruby/lib/pt/region.rb` (`clean_name`, `tag`, `status`) is not part of this model. For `ruby/lib`, `Region#tag` and `clean_name` follow branch_1's `tag_match_data`, which splits at the last `-`. branch_1's own Region defines no `clean_name` (see Findings). Names are assumed free of newlines, where the regular expression would stop.
- `Tracks.SortByStart`: Ruby's `sort!` is not stable. The model uses a stable insertion sort by start, so the order of regions with equal starts is not modelled.
- `paper_orientation` is a string in the model, not a symbol.
- `Cuesheets.Cuesheet.constructor`: the cue sheet keeps its own copy of the session's tracks, so aliasing between the session and the sheet is not modelled.
- `Cuesheets.Styler.Set`: `method_missing`'s return value after storing a hash is not modelled. Arguments other than a Hash or a Symbol are not modelled either.
- `Cuesheets.StoredMeaning`: keys outside `STYLE_ATTRIBUTES` are never stored, and the model has no way to name other keys.
- `Sessions.Session.constructor`: a float `blend` and `sample_rate` are integers. The blend is held in whole divisions for `trunk/ruby/lib` (600) and in whole seconds for `trunk/lib` and `branches/branch_1/lib` (1).
- `Interpreting.Open`: `ruby/lib/pt/track.rb`, with its 4-argument `add_primitive_region(name, start, finish, status)`, is not part of this model. The new cue is listed through `Tracks.Created`, which sorts and re-imposes as branch_1's `create_region` does.
- `Tracks.BranchReframed`: branch_1 `Region#reframe!` calls an undefined instance method `divs_per_foot` (or `divs_per_second`) on every region of non-zero length. The model returns that NameError and reframes nothing. The branch_1 session stops at the first such track and keeps `print_frames` (`Sessions.Session.Reframe`).
- `Sessions.RegionAdded`: `trunk/ruby/lib/pt/track.rb` is not part of this model. Its 4-argument `add_region(name, start, finish, status)` is taken to be branch_1's sorted `create_region` with a status. trunk/lib's `add_region` appends.
- `Blending.SeparatedBlend`: the postcondition that each region ends where the next starts is proved only for tracks whose regions are positive, ordered and disjoint. On overlapping tracks, chains of trims can move the imposing region.
- `Timecode.TcToStr`: a nil time format cannot occur, since the format starts as footage. In timecode format the hours are not printed, as in the source.
- `Sessions.TextExport`: the `%.6f` sample rate and the `duration_time` column are rendered with the model's integer formatting.
- `Sessions.Renumbered`: channels are integers. Ruby's `add_track` stores the String `(n+1).to_s`, and `renumber_tracks_from` takes any object with `succ` (`"A9".succ` is `"B0"`). String channels and `String#succ` are not modelled.
- `Sessions.BlankRowEndsReading`: `when nil` fires only for a row without cells. A blank line of the file parses to one empty cell (`Sessions.BlankLineKeepsReading`), so in the source a blank line does not end reading. Only a last line without a line ending that is empty or made only of tabs gives no cells. The model takes rows already split, so it does not derive rows from line text.
- Reading an export back is not modelled as a round trip. In timecode format the printed times do not read back (`Timecode.TimecodeNotReread`).

## Findings

The operations the rest of the model builds on follow the code as written. The corrected definitions are the members named in the last column. `Interpreting.AllInto` with `fixed` set, and `Sessions.TaggedInPlace` with `TrunkBlending.Corrected`, give the corrected pipelines.

| source | as written | input that shows it | evidently intended | confidence | as-written member | corrected member |
|---|---|---|---|---|---|---|
| trunk/lib/pt/track.rb:64 | `tag_forces_blend?` and `read_tags` call `region.tag`, which the `trunk/lib` `Region` does not define | any track of two or more regions blended with `interpret_tags` on | read the tag with `scan_region_name` (line 244) | not executed | TrunkBlending.AsWrittenTagsRaise | TrunkBlending.TagRules |
| trunk/lib/pt/track.rb:139 | the default blend duration calls `Region.divs_per_second`; the method is a private instance method, not a class method | `blend!` with no duration argument, e.g. from `interpret_tagging!` | 600 divisions per second times the session's blend | not executed | TrunkBlending.AsWrittenDefaultRaises | TrunkBlending.CorrectedDefaultDuration |
| ruby/lib/tag_interpreter.rb:80 | the arm lists `"}}"` twice and `"{{"` never, although `"{{"` is a legal tag (line 56); branch_1 does the same at branches/branch_1/lib/tag_interpreter.rb:108 | a sequence with a `name-{{` region: it adds no cue | `"{{"` acts like `"}}"` | not executed | Interpreting.BraceAsWritten | Interpreting.BraceCorrected |
| ruby/lib/pdf_qs.rb:157 | hiding muted regions rejects regions whose status is `'Unmuted'` | a sheet with `hide_muted_regions` on and one Unmuted and one Muted region: only the Muted one is shown | reject status `'Muted'` | not executed | Cuesheets.HideMutedDropsUnmuted | Cuesheets.Shown |
| branches/branch_1/lib/tag_interpreter.rb:93 | `interpret_track` calls `region.clean_name`, which branch_1's Region (branches/branch_1/lib/pt/region.rb) does not define, so every track with a region left after the `!` deletion raises NoMethodError | one untagged region `a` on [0, 600] | `clean_name` is the part of the name before the tag, as `tag_match_data` splits it | not executed | BranchInterpreting.CleanNameRaisesOnOneRegion | BranchInterpreting.BranchInterpretCorrected |
