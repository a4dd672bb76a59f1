# Metadata extraction core, modelled in Dafny

The repository turns scientific papers, converted from PDF to HTML, into table rows.
Its core is in `work.py`. That core does the following:

- It preprocesses the parsed page. Inline CSS declarations become tag attributes, and
  every tag is stamped with its page number.
- It resolves attributes that a tag inherits from its ancestors: `tag_value` and
  `tag_rect`.
- It normalises whitespace in text: `normalize_str`.
- It runs three heuristic stages in order over one shared context. The stages find the
  title, the received/accepted/published dates, and the authors.
- The author stage uses a Unicode name pattern.
- It stores each stage's result twice with `store_recursive`: once in a flat table row,
  and once in a nested record.

The model represents the parsed page as an arena of tags in document order. Each tag
has a name, an optional parent index, an attribute map and its text (`Tags.Node`). Each
Python exception the core raises is a constructor of `Base.Fault`. A stage's result is
one of three outcomes: a value, InsufficientParser, or another exception
(`Base.Outcome`). Python dicts that the code iterates become insertion-ordered item
sequences (`Base.Dict`). The shared context is a class with a map field
(`SharedContext.Context`). The frame row and the record are the fields of a
`Flatten.Sink`.

Where the code works by loops and in-place updates, the model uses methods. These are
`PreprocessSoup` over an array of tags, plus `TagValue`, `TagRect`, `FindTitle`,
`FindDates`, `FindAuthors`, `StoreRecursive` and `HandleSample`. Each method is proved
equal to a recursive specification function, and lemmas state what the source promises
about that function.

Files and modules:

| file | module | source |
|---|---|---|
| base.dfy | Base | shared vocabulary |
| strings.dfy | Strings | Python `str` operations the core uses |
| unicode_classes.dfy | UnicodeClasses | work.py:176-187 |
| normalize.dfy | Normalize | work.py:190-204 |
| name_pattern.dfy | NamePattern | work.py:287-292 |
| tags.dfy | Tags | work.py:207-248 |
| styles.dfy | Styles | work.py:44-94 |
| context.dfy | SharedContext | the `context` dict |
| title.dfy | TitleStage | work.py:259-283 |
| dates.dfy | DateStage | work.py:337-373 |
| authors.dfy | AuthorStage | work.py:294-334 |
| flatten.dfy | Flatten | work.py:386-426 |
| pipeline.dfy | Pipeline | work.py:376-380, 438-456 |

## Model

| member | source | states |
|---|---|---|
| Base.DictSetGet | work.py:350 | Assigning `d[k] = v` makes `k` read back `v` and leaves every other key's value alone. Keys stay distinct. |
| UnicodeClasses.InRangesSpec | work.py:176-187 | Scanning a character-class table finds a code point exactly when one of the table's listed intervals holds it. |
| UnicodeClasses.SpaceSeparatorSpec | work.py:187 | The space class is exactly U+0020, U+00A0, U+2000-U+200A, U+202F, U+205F and U+3000. |
| Normalize.CollapsibleIsWhitespace | work.py:190 | Every character RE_WHITESPACE matches is also whitespace to `str.strip()`. |
| Normalize.DropRun | work.py:190 | Removes exactly the leading run of RE_WHITESPACE characters: what is dropped is all in the class, and what is kept does not start with one. |
| Normalize.Collapse | work.py:204 | The substitution leaves no class character other than a single `' '`, and never two in a row. Its first character is the input's, or `' '` for a run. |
| Normalize.CollapseKeepsVisible | work.py:204 | The substitution rewrites only runs: the other characters survive unchanged and in order. |
| Normalize.CollapseKeepsLast | work.py:204 | A string ending in a non-class character keeps that character last. |
| Normalize.CollapseFixesCollapsed | work.py:204 | A string already in collapsed shape is unchanged by the substitution. |
| Normalize.NormalizeStr | work.py:193-204 | `normalize_str`: strip the Python whitespace at both ends, then replace each run of RE_WHITESPACE characters by one space. NormalizeShape and NormalizeIdempotent state what it guarantees. |
| Normalize.NormalizeShape | work.py:193-204 | The output has no newline or tab, no two adjacent Zs spaces, and no whitespace at either end. Its other characters are those of the stripped input, in order. |
| Normalize.NormalizeIdempotent | work.py:193-204 | Normalising twice is normalising once. |
| NamePattern.WordsHead | work.py:290 | A word sequence starts with a name-component character. |
| NamePattern.NameFromWitness | work.py:290 | When the scan of the first word succeeds, there is a space preceded by component characters and followed by one. |
| NamePattern.NameFromOfWitness | work.py:290 | Conversely, such a space makes the scan succeed. |
| NamePattern.NameAtSound | work.py:289-290 | A match the scanner finds is a prefix in the language `NC+ (Zs NC+)+`. |
| NamePattern.NameAtComplete | work.py:289-290 | Every prefix in that language is found by the scanner. |
| NamePattern.NameAtSpec | work.py:289-290 | The scanner decides exactly whether the name group matches at a position. |
| NamePattern.SpacesThenNameSpec | work.py:288-290 | After a separator, the space-run scanner decides exactly whether the optional prefix branch (separator, one or more Zs, then a name) matches. |
| NamePattern.Matches | work.py:288-290 | `RE_AUTHOR_NAME.match(s)`: the name group at position 0, or a separator, then a run of spaces, then the name group. MatchesSpec proves it equal to the pattern's language. |
| NamePattern.MatchesSpec | work.py:288-290 | The recogniser accepts exactly the strings that `RE_AUTHOR_NAME.match` accepts, that is, those with a prefix in the pattern's language, with or without the separator prefix. |
| NamePattern.ShortNeverMatches | work.py:288-290 | A string shorter than three characters never matches. In particular "Æ" never does. |
| NamePattern.DropSpaces | work.py:288 | Removes exactly the leading run of Zs spaces. |
| NamePattern.SkipPrefix | work.py:325-328 | Removing RE_PREFIX_SKIP's match shortens the string exactly when it starts with a separator and a space. It then removes the separator and the whole run of spaces after it, and otherwise keeps the string whole. |
| NamePattern.AcceptedInitialName | work.py:288-290 | "J. Smith" matches and is stored unchanged. |
| NamePattern.AcceptedAccentedName | work.py:289-290 | "Ana Marić" matches. |
| NamePattern.AcceptedDottedName | work.py:288-290 | "· Ivo Ivić" matches through the optional separator branch. |
| NamePattern.DottedNameCleaned | work.py:325-328 | "· Ivo Ivić" is stored as "Ivo Ivić". |
| NamePattern.SingleWordRejected | work.py:289-290 | A single word ("Smith") is not a name. |
| NamePattern.AcceptedHyphenatedName | work.py:287-290 | "Maria García-López" matches. |
| NamePattern.HyphenInFirstWord | work.py:287-290 | "Jo-Ann Lee" matches: the hyphen-minus is in the dash class, so it is a name component and the first word runs on to the space. |
| NamePattern.AcceptedCommaName | work.py:288-290 | ", A. Author" matches through the comma of the optional separator branch. |
| NamePattern.CommaNameCleaned | work.py:325-328 | ", A. Author" is stored as "A. Author". |
| Tags.Chain | work.py:224-227 | The walk through `tag.parent` visits the tag, then each parent in turn, and ends at a tag with no parent. |
| Tags.OwnValue | work.py:207-211 | `_tag_value`: a missing attribute is empty. Without a cast it is the raw string. With int it is int() of the string, which raises on a non-integer, and 0 counts as empty. |
| Tags.Inherited | work.py:213-228 | `tag_value` with inherited=True: the tag's own lookup, unless it is empty and the tag has a parent; then the parent's. InheritedNearest states what it finds. |
| Tags.IntValue | work.py:213-228 | `tag_value(tag, attr, cast=int)`: the inherited lookup with the int cast. IntValueFound states what a found value is. |
| Tags.InheritedNearest | work.py:213-228 | The inherited lookup gives what the nearest tag on the ancestor chain with a non-empty own lookup gives, whether a value or an exception. It is empty when every tag on the chain gives nothing. |
| Tags.NearestPrepend | work.py:223-227 | A tag with no own value, in front of the chain, does not change the nearest value. |
| Tags.NearestCons | work.py:223-227 | An empty lookup in front of a list of lookups does not change the first non-empty one. |
| Tags.OwnValueWins | work.py:221-224 | A tag's own value hides its ancestors' values. |
| Tags.TagValue | work.py:207-228 | The source's loop returns the own lookup when not inherited, and the recursive inherited lookup otherwise. An int() failure ends the walk. |
| Tags.IntValueFound | work.py:207-228 | A successful int lookup is never 0. It is int() of the attribute of the tag or of one of its ancestors. |
| Tags.ZeroFallsThrough | work.py:211 | A font-size of "0" is falsy, so the tag takes its parent's 12. |
| Tags.Depth | work.py:223-227 | The inherited lookup goes this many steps up the ancestor chain: its result is the own lookup of the tag at that position of the chain. |
| Tags.RectStep | work.py:240-243 | One coordinate's `result[k] or _tag_value(...)` step keeps an already-found value and touches no other coordinate. Otherwise it takes the current tag's own lookup and keeps the "still tracks the inherited value" invariant. An exception raised there is the coordinate's inherited exception, and the first one tag_rect can raise. |
| Tags.RectLevel | work.py:240-243 | The four coordinate steps at one tag, in order. An exception is the first tag_rect can raise. Otherwise every coordinate still tracks its inherited value, and each one still missing had an empty own lookup at this tag. |
| Tags.RaisesFirst | work.py:239-243 | When a still-missing coordinate's own lookup raises at the current tag, no other coordinate raises at a nearer tag, and none before it in the body raises at this tag. |
| Tags.TracksParent | work.py:244-246 | Moving up to the parent keeps each still-missing coordinate tracking its inherited value, one step further up. |
| Tags.RootReached | work.py:244-247 | At the root, each coordinate holds its inherited value, and a missing one has none anywhere on the chain. |
| Tags.TagRect | work.py:231-248 | The unrolled loop gives each of left, top, width and height its own inherited int lookup, and succeeds exactly when all four do. On failure it raises the first exception in the source's order: of the coordinates whose inherited lookup raises, the one that raises at the nearest tag up the chain, and at the same tag the first of left, top, width, height. |
| Styles.MapStyleVal | work.py:44-51 | A geometry property keeps its value without the "px" suffix. Any other unit raises. Other properties are unchanged. |
| Styles.MapStyleValRoundTrip | work.py:44-51 | Writing a geometry value with "px" and mapping it back gives the original value. |
| Styles.NonEmpty | work.py:61-63 | The filter keeps only non-empty declarations, and keeps every non-empty one. |
| Styles.NonEmptyAppend | work.py:61-63 | Filtering a concatenation concatenates the filtered parts, so the kept declarations stay in their order and each is kept once. |
| Styles.NonEmptySnoc | work.py:61-63 | Adding one more piece adds it at the end of the result exactly when it is not empty. |
| Styles.CollectOk | work.py:64-67 | The dict comprehension succeeds exactly when every declaration unpacks into one key and one value and maps without error. |
| Styles.CollectFirstError | work.py:64-67 | A failing comprehension raises the exception of the first declaration that fails. |
| Styles.CollectValues | work.py:64-67 | After success, a key is present exactly when some declaration sets it. It holds the value of the last declaration setting it. |
| Styles.LastValueIsLast | work.py:64-67 | That value comes from a declaration setting the key, and no later declaration sets it. |
| Styles.LastValueNone | work.py:64-67 | With no value, no declaration sets the key. |
| Styles.NotSetAfter | work.py:64-67 | "No later declaration sets the key" carries over from the tail to the whole list. |
| Styles.AllParseTail | work.py:64-67 | If every declaration parses, every declaration of the tail parses. |
| Styles.OneDeclaration | work.py:61-63 | A stripped style without ';' is a single declaration. |
| Styles.SplitPair | work.py:65 | `k:v` without other colons splits into exactly `[k, v]`. |
| Styles.ParsePair | work.py:65-66 | Such a declaration maps its key to `map_style_val` of its value. |
| Styles.PairStripped | work.py:61-63 | A stripped key and value joined by ':' form a stripped style without ';'. |
| Styles.CollectOne | work.py:64-67 | The comprehension over one declaration is the one-entry dict or its exception. |
| Styles.ParseDecl | work.py:65-66 | One declaration of the comprehension: `k, v = x.split(":")` raises unless there is exactly one colon. Then the stripped key maps to `map_style_val` of the stripped value. |
| Styles.Collect | work.py:64-67 | The dict comprehension, left to right: a later key overwrites an earlier one, and the first declaration that raises ends it. CollectOk, CollectFirstError and CollectValues state its result. |
| Styles.StyleKvObj | work.py:54-67 | `style_kv_obj` on a string: an empty style gives None; otherwise the comprehension over the stripped non-empty declarations, from an empty dict. SingleDeclaration shows it on one declaration. |
| Styles.InlineStyle | work.py:79-85 | Only a non-empty style is parsed. Its declarations overwrite same-named attributes, and the style attribute is removed. An exception from style_kv_obj is passed on. |
| Styles.Step | work.py:78-92 | One loop iteration: inline the style, move the page index at a page marker, and stamp the tag unless it is a `<br>`. StepStamps and StepInlines state its effect. |
| Styles.SingleDeclaration | work.py:54-67 | `style_kv_obj("k:v")` is `{k: map_style_val(k, v)}`, or the exception raised. |
| Styles.Run | work.py:76-92 | The loop keeps the number of tags. |
| Styles.RunCons | work.py:76-92 | The loop is the first tag's step, followed by the rest from the page index after it. |
| Styles.ShapeCons | work.py:76-92 | Same names, parents and texts carry over to a longer list. |
| Styles.RunKeepsShape | work.py:73-94 | Preprocessing changes only attributes. Names, parents and texts stay the same, so document structure is preserved. |
| Styles.ClearedCons | work.py:80-91 | "No non-empty style; every tag but a br has a page" carries over to a longer list. |
| Styles.RunClearsStyles | work.py:80-91 | After a run without exception, no tag keeps a non-empty style, and every tag except `<br>` has a page attribute. |
| Styles.StepInlines | work.py:79-85 | After a step that raises nothing, every attribute but "style" (and "page" on a tag other than `<br>`) holds the value the last declaration of the style gives it, or its old value when no declaration sets it. A non-empty style is gone, and an empty one stays. |
| Styles.InlinedCons | work.py:76-92 | "Each tag has its style inlined" carries over to a longer list. |
| Styles.RunInlines | work.py:76-92 | After a run without exception, each tag's attributes are its old attributes with its parsed style declarations written over them (the last declaration of a key wins) and the style removed. The only other change is the page stamp. |
| Styles.StepStamps | work.py:85-91 | One step moves the page index on at a page marker and stamps the tag with the new index. |
| Styles.StampedCons | work.py:85-91 | A tag carrying its own stamp, in front of a stamped run, keeps the run stamped. |
| Styles.LatestPageShift | work.py:85-91 | The latest page marker at or before a tag is the same in the run and in the run extended at the front. |
| Styles.RunStampsPages | work.py:73-94 | Every tag except `<br>` is stamped with the name of the latest page marker at or before it, or "0" when there is none. |
| Styles.RunAdvance | work.py:76-92 | Advancing past a tag that does not raise adds it to the processed prefix. |
| Styles.RunStops | work.py:78-84 | An exception stops the loop at the failing tag. That tag and later ones are left unchanged. |
| Styles.ProcessTag | work.py:78-92 | The loop body is the step function: inline the style, move the page index at a marker, and stamp unless the tag is `<br>`. |
| Styles.PreprocessSoup | work.py:73-94 | In-place processing of the tag array gives exactly the specified run from page "0", including where it stops. |
| SharedContext.Context.constructor | work.py:446 | The context starts empty. |
| SharedContext.Context.Set | work.py:369-370 | `context[key] = value` updates that key only. |
| SharedContext.Lookup | work.py:301-306 | Reading the context in a comparison succeeds exactly on a present, non-None key. A missing key raises KeyError and None raises TypeError. |
| TitleStage.IsTitle | work.py:262-275 | A title is a span on page 1 whose own font-size is an integer of at least 15. A non-integer font-size raises. |
| TitleStage.FirstTitle | work.py:279 | The result is a title at or after the start position. |
| TitleStage.FirstOkIsFirst | work.py:279 | When the search succeeds, every test before the one picked is false, and so is every test when none is picked. |
| TitleStage.FirstTitleIsFirst | work.py:279 | No tag before the title found is a title, and none of them raises. |
| TitleStage.TitleSizeIsOwn | work.py:281 | The size recorded is the title's own font size, at least 15, so recording it never raises. |
| TitleStage.FindTitle | work.py:278-283 | The loop gives the outcome and the new context that TitleOutcome specifies. |
| TitleStage.TitleOutcomeSpec | work.py:278-283 | A found title is the normalised text of the first title. Only "title-size" is written. An insufficient or failing stage leaves the context alone, and the exception is the first raised. |
| TitleStage.TitleOutcome | work.py:278-283 | `find_title`: the first title's normalised text, with its inherited font size written to "title-size"; InsufficientParser without a title; or the exception of the search or the lookup, with the context untouched. TitleOutcomeSpec states what it promises. |
| DateStage.Phase | work.py:342-349 | A segment's phase is one of received, accepted or published. |
| DateStage.ParseDates | work.py:337-352 | The loop gives what DateFields specifies. |
| DateStage.DateTextBetweenColons | work.py:350 | A date is the stripped text between the first colon of its segment and the next colon. |
| DateStage.DateTextOk | work.py:350 | A segment gives a date exactly when it has a colon. |
| DateStage.FillOkIffDated | work.py:340-350 | parse_dates succeeds exactly when every segment has a colon. |
| DateStage.FillValues | work.py:340-350 | When it succeeds, each phase holds the date of its last segment, or what it held before, and keys stay distinct. |
| DateStage.FillSpec | work.py:337-352 | parse_dates succeeds exactly when every segment has a colon. Then each phase holds the date of its last segment, and keys stay distinct. |
| DateStage.FillFirstError | work.py:350 | A failure is IndexError on the first segment without a colon. |
| DateStage.LastDateIsLast | work.py:340-350 | A phase's date comes from a segment of that phase, and no later segment has that phase. |
| DateStage.LastDateNone | work.py:340-350 | A phase without a date has no segment. |
| DateStage.FillKeys | work.py:342-350 | Every key produced is a phase name. |
| DateStage.Fill | work.py:340-350 | The loop of parse_dates from a given dict: each segment writes its phase's key with the text after its first colon, and a segment without a colon raises IndexError. FillSpec and FillFirstError state its result. |
| DateStage.DateFields | work.py:337-352 | `parse_dates`: split on "/", strip each segment, and fill an empty dict. ParseThreeDates shows it on the usual line. |
| DateStage.SplitThree | work.py:339 | Three slash-free pieces joined by " / " split back into the three pieces, padded. |
| DateStage.ThreeSegments | work.py:339 | Those pieces come back stripped and in order. |
| DateStage.DatedSegment | work.py:350 | "Keyword: date" gives that date. |
| DateStage.FillThree | work.py:340-350 | Three segments of the three phases give the three dates in that order. |
| DateStage.FillNewKey | work.py:340-350 | A segment whose phase is not yet in the dict appends its date at the end. |
| DateStage.TrimmedAfter | work.py:339 | A keyword in front of a trimmed date keeps it trimmed. |
| DateStage.PhasesOfKeywords | work.py:342-347 | "Received: …", "Accepted: …" and "Published: …" have the matching phases. |
| DateStage.SegmentsOfKeywords | work.py:339 | The usual dates line splits into its three keyword segments. |
| DateStage.KeywordsLine | work.py:339 | The usual dates line is its three keyword segments joined by " / ". |
| DateStage.KeywordsTrimmed | work.py:339 | Slash-free keywords in front of trimmed dates keep them trimmed. |
| DateStage.ParseThreeDates | work.py:337-352 | "Received: r / Accepted: a / Published: p" gives `{received: r, accepted: a, published: p}` in that order. |
| DateStage.ParseDatesExample | work.py:337-352 | A concrete three-date line parses to its three dates. |
| DateStage.FirstPrefix | work.py:367-368 | The keyword chosen is the first one the text starts with. With none chosen, the text starts with no keyword. |
| DateStage.MatchKeyword | work.py:367-368 | The loop over DATE_KEYWORDS picks that first keyword. |
| DateStage.FirstTrue | work.py:364-368 | The entry picked is true and lies at or after the start. |
| DateStage.FirstTrueIsFirst | work.py:364-368 | No entry before the one picked is true. With none picked, no entry from the start on is true. |
| DateStage.FirstDateSpan | work.py:364-368 | The span chosen is a span on page 1 that starts with a keyword. |
| DateStage.FirstDateSpanIsFirst | work.py:364-368 | No tag before the span chosen is such a span. With none chosen, there is no such span. |
| DateStage.FirstDateSpanStep | work.py:364-368 | Each tag is either the span chosen or skipped. It qualifies exactly when it is a span on page 1 whose stripped, lower-cased text starts with a keyword. |
| DateStage.FindSpan | work.py:364-368 | The two nested loops give the first date span and its first matching keyword. |
| DateStage.FirstLineWith | work.py:371 | The line chosen starts, lower-cased, with the keyword. |
| DateStage.FindLine | work.py:371 | The `next(filter(...))` loop picks that line. |
| DateStage.FindDates | work.py:363-373 | The method gives the outcome and the new context that DatesOutcome specifies. |
| DateStage.ReadSpan | work.py:369-372 | For the span found, the method gives what SpanOutcome specifies. date-start is written before font-size is read. |
| DateStage.DateKeywordsHaveNoNewline | work.py:355-360 | No keyword contains a newline. |
| DateStage.FirstLineMatches | work.py:371 | When the text starts with a newline-free keyword, its first line already does, so `next` never raises. |
| DateStage.FirstLineOfSpan | work.py:371 | A date span's keyword line is its first line. |
| DateStage.DatesOutcomeSpec | work.py:363-373 | The dates come from the first line of the first date span. date-start and date-size are that span's inherited top and font size. With no span, the stage is insufficient and the context untouched. A failing top lookup raises its exception with the context untouched. A failing font-size lookup raises its exception with date-start already written. Otherwise parse_dates raises its exception with both sizes written. |
| DateStage.SpanOutcomeSpec | work.py:369-372 | Once the span is found, the stage is never insufficient. Found dates come with both sizes written. An exception is top's (nothing written), else font-size's (date-start written), else parse_dates's (both written). |
| DateStage.DatesOutcome | work.py:363-373 | `find_dates`: the first date span decides; with none the stage is insufficient and the context untouched. DatesOutcomeSpec states what it promises. |
| DateStage.SpanOutcome | work.py:369-372 | Once the span is found: write date-start, then date-size, then take the first line starting with the keyword and parse it, each step raising what it raises. SpanOutcomeSpec states what it promises. |
| AuthorStage.Verdicts | work.py:319 | is_namelike's verdict on every tag, in document order. |
| AuthorStage.Accepted | work.py:319 | find_all returns indices of tags within the range scanned. |
| AuthorStage.Namelike | work.py:319 | find_all returns indices of tags of the page. |
| AuthorStage.AcceptedStep | work.py:319 | One scan step adds an accepted tag to the found list. |
| AuthorStage.FindAll | work.py:319 | The find_all loop gives what Namelike specifies. |
| AuthorStage.CleanNames | work.py:319-329 | The loop over the tags find_all returned gives what Cleaned specifies. |
| AuthorStage.CleanedName | work.py:320-329 | The name appended for one tag: its stripped text without a leading separator and its spaces, or nothing for the text "Æ". |
| AuthorStage.FindAuthors | work.py:316-334 | The loop gives what AuthorsOutcome specifies. |
| AuthorStage.AcceptedSpec | work.py:319 | The tags returned are all accepted, in strictly increasing document order, and every tag left out was rejected. |
| AuthorStage.AcceptedError | work.py:319 | find_all raises exactly when some tag raises, with the first such tag's exception. |
| AuthorStage.IsNamelikeSpec | work.py:294-313 | Once the context holds all three sizes, a tag is name-like exactly when all of these hold: it is a span on page 1; its inherited top is at most date-start; its inherited font size is strictly between date-size and title-size; its stripped text matches the name pattern. |
| AuthorStage.IsNamelike | work.py:294-313 | `is_namelike`: the checks in the source's order. A context value is read only when its comparison is reached, so a missing key raises KeyError and None raises TypeError. A tag at date-start passes. IsNamelikeSpec states it once the sizes are present. |
| AuthorStage.InheritedFault | work.py:207-211 | An int lookup can only raise ValueError from int(). |
| AuthorStage.NoDateStartTag | work.py:299-301 | Without date-start no tag is name-like. The only exceptions are KeyError and ValueError. |
| AuthorStage.AuthorsNeedDateStart | work.py:316-334 | Without date-start the author stage never finds authors. |
| AuthorStage.NamelikeIsName | work.py:313-322 | A name-like tag's text matches and has at least three characters, so it is never "Æ". |
| AuthorStage.CleanedKeepsAll | work.py:319-329 | Without "Æ", every tag contributes its cleaned text. |
| AuthorStage.AuthorsRaise | work.py:316-334 | The stage raises exactly when some tag makes is_namelike raise, with the first such exception. |
| AuthorStage.AuthorsFound | work.py:316-334 | Otherwise it finds authors exactly when some tag is name-like. |
| AuthorStage.AcceptedSome | work.py:319 | find_all returns some tag exactly when some verdict is true. |
| AuthorStage.NamesPerTag | work.py:319-329 | Every tag find_all returns gives exactly one name. |
| AuthorStage.NamelikeSpec | work.py:319 | The tags returned are all name-like and in document order, and every tag left out is not name-like. |
| AuthorStage.AuthorsNames | work.py:319-331 | The names found are the cleaned texts of those tags, one per tag, in document order. |
| AuthorStage.AuthorsOutcome | work.py:316-334 | `find_authors`: the cleaned names of the name-like tags; InsufficientParser when there are none; or find_all's exception. AuthorsRaise, AuthorsFound and AuthorsNames state its result. |
| Flatten.Get | work.py:412 | `value.get(key, None)` is None or a part of the dict. |
| Flatten.Store | work.py:386-426 | `store_recursive`: None is a no-op, a tuple is stored as a list, a list or dict goes through its items, a scalar under a string name is written, and a scalar under a tuple raises. StoreRaises, StoreRecordColumn and ListRow state its effect. |
| Flatten.StoreList | work.py:399-408 | A list (or tuple) under a string name: the length column, each item table-only under `name.i`, then the list in the record unless table_only. Under a tuple of names it raises AssertionError. |
| Flatten.StoreItems | work.py:405-406 | The items from index i on, each stored table-only under `name.i`; the first failure stops it. |
| Flatten.StoreEntries | work.py:417-418 | The dict items from item i on, each stored table-only under `name.key`; the first failure stops it. |
| Flatten.StoreNamed | work.py:410-414 | A dict under a tuple of names, from name i on: each name is stored table-only with `value.get(name, None)`, and unless table_only recorded under that name. |
| Flatten.Sink.constructor | work.py:438-441 | The frame row starts empty and the record starts seeded. |
| Flatten.StoreRecursive | work.py:386-426 | The in-place recursion with its loops writes exactly the row and record that Store specifies, and raises what Store raises. |
| Flatten.ColumnNeverRaises | work.py:386-426 | Under a column name nothing raises. |
| Flatten.ItemsNeverRaise | work.py:405-406 | The list items never raise. |
| Flatten.EntriesNeverRaise | work.py:417-418 | The dict entries under a column name never raise. |
| Flatten.NamedNeverRaises | work.py:410-414 | A dict under a tuple of names never raises. |
| Flatten.StoreRaises | work.py:386-426 | Only a list or tuple (AssertionError) or a scalar (the explicit raise) under a tuple of names raises, and then before any write. |
| Flatten.TableOnlyKeepsRecord | work.py:386-426 | A table-only call never changes the record. |
| Flatten.ItemsKeepRecord | work.py:405-406 | Storing the items never changes the record. |
| Flatten.EntriesKeepRecord | work.py:417-418 | Storing the entries never changes the record. |
| Flatten.NamedKeepsRecord | work.py:410-414 | A table-only named store never changes the record. |
| Flatten.StoreRecordColumn | work.py:396-424 | A top-level store under a column puts the value in the record under that name, a tuple as its list. Other keys are untouched and None is a no-op. |
| Flatten.StoreRecordNamed | work.py:410-414 | A dict under a tuple of names records `value.get(name, None)` under each name, None included, and touches no other key. |
| Flatten.NoneAndTuple | work.py:396-400 | None is a no-op. A tuple is stored exactly as its list. |
| Flatten.ItemsOfTuple | work.py:399-400 | A tuple's items are stored as a list's. |
| Flatten.ChildInjective | work.py:406-418 | Distinct keys give distinct child columns. |
| Flatten.IndexColumns | work.py:404-406 | The index columns are pairwise distinct, and none is the length column. |
| Flatten.AgreeOutsideTrans | work.py:404-406 | Agreement outside key sets composes. |
| Flatten.CellsStep | work.py:405-406 | The cells of items i.. are item i's cell followed by the cells of the later items. |
| Flatten.ItemsRow | work.py:405-406 | Scalar items land in `name.i` and nothing else changes. |
| Flatten.ListRow | work.py:402-406 | A list of scalars gives `name.length` its length and `name.i` its i-th item, and changes no other column. |
| Flatten.NamedRow | work.py:410-414 | A dict of scalars under a tuple of names gives each present name its value and no column for a missing or None one. |
| Flatten.StoreRecordOutside | work.py:386-426 | A top-level call leaves every record key outside its name alone. |
| Pipeline.StrList | work.py:329 | A list of names as a Python list value. |
| Pipeline.StrDict | work.py:350 | The dates dict as a Python dict value, with the same keys in the same order. |
| Pipeline.RunStage | work.py:451 | `f(soup, context)` for one PARSERS entry: the stage's outcome as a stored value, and the context after it. The author stage does not write the context. |
| Pipeline.Record | work.py:450-456 | The body of the try: a found value is stored, keeping what store_recursive wrote before any failure; InsufficientParser or another exception stores nothing. |
| Pipeline.Step | work.py:448-456 | One pass of the loop over PARSERS: run stage i on the context and record its result under its PARSERS name. |
| Pipeline.Stages | work.py:448-456 | The loop over PARSERS from stage i on, in the order title, dates, authors. |
| Pipeline.Sample | work.py:438-458 | `handle_sample` after reading the soup: an empty context, an empty frame and a record seeded with the document name, then the stage loop. SampleRecord and SampleSteps state its result. |
| Pipeline.CallStage | work.py:451 | `f(soup, context)` for each PARSERS entry runs that stage's method. |
| Pipeline.HandleSample | work.py:438-456 | From an empty context and a record holding the document name, the method gives what Sample specifies. |
| Pipeline.RunParsers | work.py:447-456 | The loop over PARSERS takes the context, frame and record through every stage as Stages specifies. |
| Pipeline.RunParser | work.py:447-456 | One pass runs stage i and stores a found value, with exceptions caught, as Step specifies. |
| Pipeline.SampleSteps | work.py:446-455 | Title runs on an empty context, dates on the title's context, and authors on the dates' context. Each result is stored under its PARSERS name. |
| Pipeline.StrDictGet | work.py:412 | `value.get(name, None)` on the dates dict is the date or None. |
| Pipeline.DatesRecord | work.py:410-414 | The dates store records each date name and no other key. |
| Pipeline.RecordsOf | work.py:438-455 | The record holds the document name, each found value under its name, and nothing else. |
| Pipeline.SampleRecord | work.py:438-456 | The record has "document"; "title" exactly when a title was found; each date name (its date or None) exactly when the dates line was found; "authors" exactly when authors were found; and no other key. |
| Pipeline.AuthorsNeedDates | work.py:363-373 | When the dates stage finds no span, no author is recorded. |

## Left out

- Reading the PDF, repairing it, converting it to HTML, and parsing the HTML (`pdf_soup`, `repaired_pdf`, BeautifulSoup). This is external I/O and foreign code. The model starts from the parsed tags in document order, each with its `.text` given.
- `run`, `test_specific`, the process pool, CSV/JSON output, the "already processed" file check, and the `print`/`traceback` reporting in `handle_sample`. These are I/O and concurrency.
- Table extraction (camelot) and pandas beyond the one row a sample writes. The frame is modelled as that row, a map from column to cell.
- Python `str.lower()` is modelled on ASCII letters only. Python lowers all of Unicode, and can change a string's length.
- `int()` of a string is modelled as strip, an optional sign, and ASCII digits. Underscores and non-ASCII digits are not accepted.
- The order of keys in the record, and the column order of the frame, are not modelled. Both are maps.
- The `style is object` branch of `style_kv_obj` is left out. A style attribute is always a string, so the branch is never taken.
- Only tags are visited. Text nodes have no attributes and are skipped by `preprocess_soup`'s `hasattr` test and by the stages.
- AuthorStage.CleanedName does not model `RE_AUTHOR_NAME.search` or the `len(name.groups()) >= 3` test. Every tag reaching that point already matched, and the pattern has three groups, so both always pass. The "Æ" test is modelled, and AuthorStage.NamelikeIsName proves it never fires.
- `tag_value`'s docstring (work.py:217) says it returns None when it fails. A value `int()` rejects makes `int()` raise ValueError instead, and the model follows the code (`Fault.NotAnInteger`).
- A value that `int()` casts to 0 is falsy. `value is not None and cast(value) or None` turns it into None, so the lookup goes on to the parent. The model keeps this (Tags.ZeroFallsThrough).
- The comment at work.py:299 says authors always come before the publication date. `is_namelike` rejects only `top > date-start` (work.py:301), so a tag at the same height as the dates passes. The model follows the code.
- `is_title` compares the tag's own font-size attribute with 15 (work.py:266-267), not the inherited one. `find_title` then records the inherited size (work.py:281), which for a title is the same value (TitleStage.TitleSizeIsOwn).
- When the dates stage found nothing, the context has no "date-start". The author stage then raises KeyError at the first span on page 1 that has a top (work.py:301), rather than InsufficientParser. AuthorStage.AuthorsNeedDateStart states this: no authors, and any exception is KeyError or ValueError.
