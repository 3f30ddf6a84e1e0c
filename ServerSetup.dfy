/**
  The server-setup cog: the roadmap and whitepaper embeds built from the
  project site, the permission check of `/setup_server`, and the rule by
  which a channel's bot message is refreshed.

  Pages are given as what the HTML parser yields: the stripped texts of the
  roadmap's list items, and the whitepaper as one flat list of sibling
  nodes (tag and stripped text).
*/
module ServerSetup {
  import opened Wrappers
  import opened PyText
  import opened Chat

  // ---------------------------------------------------------------------------
  // Order-keeping filters (list comprehensions with a condition)
  // ---------------------------------------------------------------------------

  /** `[x for x in s if p(x)]`. */
  function Filter(s: seq<string>, p: string -> bool): (r: seq<string>)
    ensures |r| <= |s|
    ensures forall i :: 0 <= i < |r| ==> p(r[i]) && r[i] in s
    ensures forall x :: x in s && p(x) ==> x in r
    decreases |s|
  {
    if |s| == 0 then []
    else
      var rest := Filter(s[1..], p);
      assert forall x :: x in s[1..] ==> x in s;
      assert forall x :: x in s ==> x == s[0] || x in s[1..];
      (if p(s[0]) then [s[0]] else []) + rest
  }

  /** Filtering a longer list: the old result, then the new element if kept. */
  lemma {:induction false} FilterSnoc(s: seq<string>, x: string, p: string -> bool)
    ensures Filter(s + [x], p) == Filter(s, p) + (if p(x) then [x] else [])
    decreases |s|
  {
    if |s| == 0 {
      assert Filter([x], p) == (if p(x) then [x] else []) + Filter([], p);
    } else {
      assert (s + [x])[1..] == s[1..] + [x];
      FilterSnoc(s[1..], x, p);
    }
  }

  /** Filtering by `p` and then by a stronger `q` is filtering by `q`. */
  lemma {:induction false} FilterFilter(s: seq<string>, p: string -> bool, q: string -> bool)
    requires forall x :: q(x) ==> p(x)
    ensures Filter(Filter(s, p), q) == Filter(s, q)
    decreases |s|
  {
    if |s| > 0 {
      FilterFilter(s[1..], p, q);
      var rest := Filter(s[1..], p);
      if p(s[0]) {
        assert Filter(s, p) == [s[0]] + rest;
        assert ([s[0]] + rest)[0] == s[0];
        assert ([s[0]] + rest)[1..] == rest;
        assert Filter([s[0]] + rest, q) == (if q(s[0]) then [s[0]] else []) + Filter(rest, q);
      } else {
        assert !q(s[0]);
        assert Filter(s, p) == rest;
      }
      assert Filter(s, q) == (if q(s[0]) then [s[0]] else []) + Filter(s[1..], q);
    }
  }

  // ---------------------------------------------------------------------------
  // Roadmap items
  // ---------------------------------------------------------------------------

  /** The status marks of roadmap items. Each is one code point, so the
      substring test on it is membership (`PyText.ContainsChar`). */
  const Done: char := '✅'
  const Pending: char := '⏳'
  const Syncing: char := '🔄'

  /** A list item is a roadmap item iff it carries one of the three marks. */
  predicate IsRoadmapItem(text: string)
  {
    Done in text || Pending in text || Syncing in text
  }

  predicate IsCompleted(text: string)
  {
    Done in text
  }

  predicate IsInProgress(text: string)
  {
    Pending in text
  }

  /** The loop over the list items keeping the roadmap items, in page order. */
  method CollectRoadmapItems(texts: seq<string>) returns (items: seq<string>)
    ensures items == Filter(texts, IsRoadmapItem)
  {
    items := [];
    var i := 0;
    while i < |texts|
      invariant 0 <= i <= |texts|
      invariant items == Filter(texts[..i], IsRoadmapItem)
    {
      FilterSnoc(texts[..i], texts[i], IsRoadmapItem);
      assert texts[..i + 1] == texts[..i] + [texts[i]];
      if IsRoadmapItem(texts[i]) {
        items := items + [texts[i]];
      }
      i := i + 1;
    }
    assert texts[..i] == texts;
  }

  /** The completed items are exactly the list items marked done, and the
      items in progress exactly those marked pending, both in page order. */
  lemma PartitionByMark(texts: seq<string>)
    ensures Filter(Filter(texts, IsRoadmapItem), IsCompleted) == Filter(texts, IsCompleted)
    ensures Filter(Filter(texts, IsRoadmapItem), IsInProgress) == Filter(texts, IsInProgress)
  {
    FilterFilter(texts, IsRoadmapItem, IsCompleted);
    FilterFilter(texts, IsRoadmapItem, IsInProgress);
  }

  /** An item marked only as syncing is kept as a roadmap item but shown in
      neither field. */
  lemma SyncingOnlyItemNotShown(texts: seq<string>, x: string)
    requires x in texts && Syncing in x && Done !in x && Pending !in x
    ensures x in Filter(texts, IsRoadmapItem)
    ensures x !in Filter(Filter(texts, IsRoadmapItem), IsCompleted)
    ensures x !in Filter(Filter(texts, IsRoadmapItem), IsInProgress)
  {
  }

  // ---------------------------------------------------------------------------
  // chunk_list
  // ---------------------------------------------------------------------------

  /** The concatenation of a list of lists. */
  function Flatten(xs: seq<seq<string>>): seq<string>
    decreases |xs|
  {
    if |xs| == 0 then [] else xs[0] + Flatten(xs[1..])
  }

  /** Consecutive slices of `size` elements, the last one possibly shorter. */
  function Chunks(data: seq<string>, size: nat): (chunks: seq<seq<string>>)
    requires size > 0
    ensures forall i :: 0 <= i < |chunks| ==> 1 <= |chunks[i]| <= size
    decreases |data|
  {
    if |data| == 0 then []
    else if |data| <= size then [data]
    else [data[..size]] + Chunks(data[size..], size)
  }

  /** The chunks, concatenated, give back the data; every chunk but the last
      is full. */
  lemma {:induction false} ChunksCover(data: seq<string>, size: nat)
    requires size > 0
    ensures Flatten(Chunks(data, size)) == data
    ensures forall i :: 0 <= i < |Chunks(data, size)| - 1 ==> |Chunks(data, size)[i]| == size
    decreases |data|
  {
    if |data| == 0 {
    } else if |data| <= size {
      assert Flatten([data]) == data + Flatten([]);
    } else {
      var rest := Chunks(data[size..], size);
      ChunksCover(data[size..], size);
      var chunks := [data[..size]] + rest;
      assert Chunks(data, size) == chunks;
      assert chunks[1..] == rest;
      assert Flatten(chunks) == data[..size] + Flatten(rest);
      assert data[..size] + data[size..] == data;
      forall i | 0 <= i < |chunks| - 1
        ensures |chunks[i]| == size
      {
        if i > 0 {
          assert chunks[i] == rest[i - 1];
        }
      }
    }
  }

  /** `chunk_list(data, size)`: a zero size makes `range` raise; a negative
      size gives no chunks. */
  function ChunkList(data: seq<string>, size: int): (r: Option<seq<seq<string>>>)
    ensures r.None? <==> size == 0
    ensures size < 0 ==> r == Some([])
    ensures size > 0 ==> r.Some? && Flatten(r.value) == data
    ensures size > 0 ==> r.Some? && forall i :: 0 <= i < |r.value| ==> 1 <= |r.value[i]| <= size
  {
    if size == 0 then None
    else if size < 0 then Some([])
    else
      ChunksCover(data, size);
      Some(Chunks(data, size))
  }

  // ---------------------------------------------------------------------------
  // Field values
  // ---------------------------------------------------------------------------

  /** The longest value an embed field takes. */
  const FieldLimit: nat := 1024

  /** A value over the limit is cut to its first 1021 characters plus "...". */
  function Truncate(s: string): (r: string)
    ensures |r| <= FieldLimit
    ensures |s| <= FieldLimit ==> r == s
    ensures |s| > FieldLimit ==> |r| == FieldLimit && r[..FieldLimit - 3] == s[..FieldLimit - 3]
                                 && r[FieldLimit - 3..] == "..."
  {
    if |s| > FieldLimit then s[..FieldLimit - 3] + "..." else s
  }

  /** Truncating twice is truncating once. */
  lemma TruncateIdempotent(s: string)
    ensures Truncate(Truncate(s)) == Truncate(s)
  {
  }

  /** The name of the completed field at position `idx`. */
  function CompletedFieldName(idx: nat): (name: string)
    ensures idx == 0 ==> name == CompletedFirstName
    ensures idx > 0 ==> name == CompletedLaterName
  {
    if idx == 0 then CompletedFirstName else CompletedLaterName
  }

  /** The name of the first completed field. */
  const CompletedFirstName: string := "✅ Completed / Ολοκληρωμένα"
  /** The name of every later completed field. */
  const CompletedLaterName: string := "✅ Completed (cont.)"

  /** The name of the field listing the items in progress. */
  const InProgressName: string := "⏳ In Progress / Σε εξέλιξη"

  /** Items per completed field. */
  const CompletedPerField: nat := 8

  /** The completed items of the list items, in page order. */
  function Completed(texts: seq<string>): seq<string>
  {
    Filter(Filter(texts, IsRoadmapItem), IsCompleted)
  }

  /** The items in progress of the list items, in page order. */
  function InProgress(texts: seq<string>): seq<string>
  {
    Filter(Filter(texts, IsRoadmapItem), IsInProgress)
  }

  /** The field of one chunk of completed items at position `idx`: one item
      per line, cut to the field limit. */
  function CompletedField(idx: nat, chunk: seq<string>): Field
  {
    Field(CompletedFieldName(idx), Truncate(Join("\n", chunk)))
  }

  /** The fields of the completed items, one per chunk. */
  function CompletedFields(chunks: seq<seq<string>>): (fields: seq<Field>)
    ensures |fields| == |chunks|
    ensures forall i :: 0 <= i < |chunks| ==> fields[i] == CompletedField(i, chunks[i])
  {
    seq(|chunks|, i requires 0 <= i < |chunks| => CompletedField(i, chunks[i]))
  }

  /** The field of the items in progress, when there are any. */
  function InProgressFields(items: seq<string>): (fields: seq<Field>)
    ensures |fields| == if |items| > 0 then 1 else 0
  {
    if |items| > 0 then [Field(InProgressName, Truncate(Join("\n", items)))] else []
  }

  /**
    The fields of the roadmap embed: the completed items eight to a field,
    then one field with every item in progress.
  */
  function RoadmapFieldList(texts: seq<string>): seq<Field>
  {
    CompletedFields(Chunks(Completed(texts), CompletedPerField)) + InProgressFields(InProgress(texts))
  }

  /** The completed fields followed by the in-progress field: names by
      position, values cut to the field limit. */
  lemma FieldListShape(chunks: seq<seq<string>>, items: seq<string>)
    ensures var fields := CompletedFields(chunks) + InProgressFields(items);
      && |fields| == |chunks| + (if |items| > 0 then 1 else 0)
      && (|chunks| > 0 ==> fields[0].name == CompletedFirstName)
      && (forall i :: 0 < i < |chunks| ==> fields[i].name == CompletedLaterName)
      && (forall i :: 0 <= i < |chunks| ==> fields[i].value == Truncate(Join("\n", chunks[i])))
      && (|items| > 0 ==> fields[|chunks|] == Field(InProgressName, Truncate(Join("\n", items))))
      && (forall i :: 0 <= i < |fields| ==> |fields[i].value| <= FieldLimit)
  {
    var c := CompletedFields(chunks);
    var p := InProgressFields(items);
    assert forall i :: 0 <= i < |c| ==> (c + p)[i] == c[i];
    assert forall i :: 0 <= i < |p| ==> (c + p)[|c| + i] == p[i];
  }

  /** The roadmap fields: first the completed items eight to a field in page
      order, the first field named as such and the rest as continuations,
      then the items in progress; every value within the field limit; the
      chunks hold every completed item. */
  lemma RoadmapFieldsShape(texts: seq<string>)
    ensures var chunks := Chunks(Completed(texts), CompletedPerField);
      var fields := RoadmapFieldList(texts);
      && Flatten(chunks) == Completed(texts)
      && (forall i :: 0 <= i < |chunks| ==> 1 <= |chunks[i]| <= CompletedPerField)
      && |fields| == |chunks| + (if |InProgress(texts)| > 0 then 1 else 0)
      && (|chunks| > 0 ==> fields[0].name == CompletedFirstName)
      && (forall i :: 0 < i < |chunks| ==> fields[i].name == CompletedLaterName)
      && (forall i :: 0 <= i < |chunks| ==> fields[i].value == Truncate(Join("\n", chunks[i])))
      && (|InProgress(texts)| > 0 ==>
            fields[|chunks|] == Field(InProgressName, Truncate(Join("\n", InProgress(texts)))))
      && (forall i :: 0 <= i < |fields| ==> |fields[i].value| <= FieldLimit)
  {
    ChunksCover(Completed(texts), CompletedPerField);
    FieldListShape(Chunks(Completed(texts), CompletedPerField), InProgress(texts));
  }

  /** The loop adding one field per chunk. */
  method AddCompletedFields(chunks: seq<seq<string>>) returns (fields: seq<Field>)
    ensures fields == CompletedFields(chunks)
  {
    fields := [];
    var idx := 0;
    while idx < |chunks|
      invariant 0 <= idx <= |chunks|
      invariant |fields| == idx
      invariant forall i :: 0 <= i < idx ==> fields[i] == CompletedField(i, chunks[i])
    {
      fields := fields + [CompletedField(idx, chunks[idx])];
      idx := idx + 1;
    }
  }

  /** The roadmap part of `get_roadmap_embed`, from the texts of the list
      items. */
  method RoadmapFields(texts: seq<string>) returns (fields: seq<Field>)
    ensures fields == RoadmapFieldList(texts)
  {
    var items := CollectRoadmapItems(texts);
    var completed := Filter(items, IsCompleted);
    var inProgress := Filter(items, IsInProgress);
    fields := [];
    if |completed| > 0 {
      var chunks := ChunkList(completed, CompletedPerField);
      fields := AddCompletedFields(chunks.value);
    }
    if |inProgress| > 0 {
      fields := fields + [Field(InProgressName, Truncate(Join("\n", inProgress)))];
    }
  }

  // ---------------------------------------------------------------------------
  // Whitepaper sections
  // ---------------------------------------------------------------------------

  /** A node of the whitepaper page: its tag name and its stripped text. */
  datatype Node = Node(tag: string, text: string)

  predicate IsHeader(n: Node)
  {
    n.tag == "h2" || n.tag == "h3"
  }

  /** A header too short or naming a menu is navigation and is skipped. */
  predicate IsNavigation(header: string)
  {
    |header| < 3 || Contains(header, "Menu")
  }

  /** The paragraphs shorter than this count are not meaningful text. */
  const MinParagraph: nat := 30
  /** A section stops growing once its text is longer than this. */
  const SectionLimit: nat := 300
  /** At most this many sections are shown. */
  const MaxSections: nat := 6

  /**
    The text of a section: walking the siblings from `j` up to the next
    header, every paragraph longer than 30 characters is appended with a blank
    line, and the walk stops once the text exceeds 300 characters.
  */
  function Body(nodes: seq<Node>, j: nat, content: string): string
    decreases |nodes| - j
  {
    if j >= |nodes| || IsHeader(nodes[j]) then content
    else if nodes[j].tag == "p" && |nodes[j].text| > MinParagraph then
      var c := content + nodes[j].text + "\n\n";
      if |c| > SectionLimit then c else Body(nodes, j + 1, c)
    else Body(nodes, j + 1, content)
  }

  /** The sections found from node `h` on, after those already in `acc`. */
  function SectionsFrom(nodes: seq<Node>, h: nat, acc: seq<(string, string)>): seq<(string, string)>
    decreases |nodes| - h
  {
    if h >= |nodes| then acc
    else if !IsHeader(nodes[h]) || IsNavigation(nodes[h].text) then SectionsFrom(nodes, h + 1, acc)
    else
      var body := Body(nodes, h + 1, "");
      if body == "" then SectionsFrom(nodes, h + 1, acc)
      else
        var more := acc + [(nodes[h].text, body)];
        if |more| >= MaxSections then more else SectionsFrom(nodes, h + 1, more)
  }

  /** A section shown: a header that is not navigation, and some text. */
  predicate GoodSection(s: (string, string))
  {
    !IsNavigation(s.0) && s.1 != ""
  }

  /** The section text only grows from what it starts with. */
  lemma {:induction false} BodyExtends(nodes: seq<Node>, j: nat, content: string)
    ensures |Body(nodes, j, content)| >= |content|
    ensures Body(nodes, j, content)[..|content|] == content
    decreases |nodes| - j
  {
    if j < |nodes| && !IsHeader(nodes[j]) {
      if nodes[j].tag == "p" && |nodes[j].text| > MinParagraph {
        var c := content + nodes[j].text + "\n\n";
        if |c| <= SectionLimit {
          BodyExtends(nodes, j + 1, c);
          assert c[..|content|] == content;
        }
      } else {
        BodyExtends(nodes, j + 1, content);
      }
    }
  }

  /** Paragraphs of 30 characters or fewer, and other tags, add nothing. */
  lemma {:induction false} ShortParagraphsIgnored(nodes: seq<Node>, j: nat, content: string)
    requires forall k :: j <= k < |nodes| ==> nodes[k].tag != "p" || |nodes[k].text| <= MinParagraph
    ensures Body(nodes, j, content) == content
    decreases |nodes| - j
  {
    if j < |nodes| && !IsHeader(nodes[j]) {
      ShortParagraphsIgnored(nodes, j + 1, content);
    }
  }

  /** At most six sections, each with a real header and some text. */
  lemma {:induction false} SectionsWellFormed(nodes: seq<Node>, h: nat, acc: seq<(string, string)>)
    requires |acc| < MaxSections
    requires forall i :: 0 <= i < |acc| ==> GoodSection(acc[i])
    ensures |SectionsFrom(nodes, h, acc)| <= MaxSections
    ensures forall i :: 0 <= i < |SectionsFrom(nodes, h, acc)| ==> GoodSection(SectionsFrom(nodes, h, acc)[i])
    decreases |nodes| - h
  {
    if h < |nodes| {
      if !IsHeader(nodes[h]) || IsNavigation(nodes[h].text) {
        SectionsWellFormed(nodes, h + 1, acc);
      } else {
        var body := Body(nodes, h + 1, "");
        if body == "" {
          SectionsWellFormed(nodes, h + 1, acc);
        } else {
          var more := acc + [(nodes[h].text, body)];
          assert GoodSection(more[|acc|]);
          if |more| < MaxSections {
            SectionsWellFormed(nodes, h + 1, more);
          }
        }
      }
    }
  }

  /** The loops of `get_whitepaper_embed` collecting the sections. */
  method WhitepaperSections(nodes: seq<Node>) returns (sections: seq<(string, string)>)
    ensures sections == SectionsFrom(nodes, 0, [])
  {
    sections := [];
    var h := 0;
    while h < |nodes|
      invariant 0 <= h <= |nodes|
      invariant |sections| < MaxSections
      invariant SectionsFrom(nodes, 0, []) == SectionsFrom(nodes, h, sections)
    {
      if IsHeader(nodes[h]) && !IsNavigation(nodes[h].text) {
        var header := nodes[h].text;
        var content := "";
        var j := h + 1;
        while j < |nodes| && !IsHeader(nodes[j])
          invariant h + 1 <= j <= |nodes|
          invariant Body(nodes, h + 1, "") == Body(nodes, j, content)
        {
          if nodes[j].tag == "p" {
            var text := nodes[j].text;
            if |text| > MinParagraph {
              content := content + text + "\n\n";
              if |content| > SectionLimit {
                break;
              }
            }
          }
          j := j + 1;
        }
        assert content == Body(nodes, h + 1, "");
        if content != "" {
          sections := sections + [(header, content)];
          if |sections| >= MaxSections {
            return;
          }
        }
      }
      h := h + 1;
    }
  }

  /** The description when no section was found. */
  const ParseFailedNotice: string := "Could not parse structure automatically. Please view the PDF or Website."

  /** The description above the sections. */
  const SummaryHeading: string := "**Executive Summary**\nRead full doc at [thronos.network](https://thrchain.up.railway.app/whitepaper)"

  /** What the whitepaper embed shows. */
  datatype WhitepaperView =
    | Unfetched                            // the page could not be fetched
    | Unparsed(description: string)        // no section was found
    | Summary(description: string, fields: seq<Field>)

  /** The whitepaper embed: when sections were found, the summary heading and
      one field per section, at most six, each value within the field limit;
      a fixed notice when no section was found. */
  method WhitepaperEmbed(page: Option<seq<Node>>) returns (v: WhitepaperView)
    ensures page.None? <==> v.Unfetched?
    ensures page.Some? && SectionsFrom(page.value, 0, []) == [] ==>
      v == Unparsed(ParseFailedNotice)
    ensures page.Some? && SectionsFrom(page.value, 0, []) != [] ==>
      v.Summary? && v.description == SummaryHeading
    ensures v.Summary? ==>
      && page.Some?
      && var sections := SectionsFrom(page.value, 0, []);
      && |v.fields| == |sections| <= MaxSections
      && forall i :: 0 <= i < |sections| ==>
           v.fields[i] == Field("🔹 " + sections[i].0, Truncate(sections[i].1))
           && !IsNavigation(sections[i].0) && v.fields[i].value != ""
  {
    if page.None? {
      return Unfetched;
    }
    var sections := WhitepaperSections(page.value);
    SectionsWellFormed(page.value, 0, []);
    if |sections| == 0 {
      return Unparsed(ParseFailedNotice);
    }
    var fields: seq<Field> := [];
    var i := 0;
    while i < |sections|
      invariant 0 <= i <= |sections|
      invariant |fields| == i
      invariant forall k :: 0 <= k < i ==> fields[k] == Field("🔹 " + sections[k].0, Truncate(sections[k].1))
    {
      fields := fields + [Field("🔹 " + sections[i].0, Truncate(sections[i].1))];
      i := i + 1;
    }
    v := Summary(SummaryHeading, fields);
  }

  // ---------------------------------------------------------------------------
  // /setup_server permission
  // ---------------------------------------------------------------------------

  /** The reply to a caller who may not run the setup. */
  const SetupRefusal: string := "❌ You do not have permission to run this command (Admin, 'Admins' or 'The Creator' required)."

  /** The outcome of the permission check of `/setup_server`. */
  datatype SetupGate = Denied(reply: string) | Allowed

  /** An administrator, or a holder of the role "The Creator" or "Admins",
      may run the setup; anyone else gets a refusal and nothing changes. */
  function SetupPermission(isAdmin: bool, roles: seq<string>): (g: SetupGate)
    ensures g.Allowed? <==> isAdmin || "The Creator" in roles || "Admins" in roles
    ensures g.Denied? ==> g.reply == SetupRefusal
  {
    if isAdmin || "The Creator" in roles || "Admins" in roles then Allowed
    else Denied(SetupRefusal)
  }

  // ---------------------------------------------------------------------------
  // update_channel_content
  // ---------------------------------------------------------------------------

  /** A message of the channel history, newest first: its id and whether the
      bot wrote it. */
  datatype Message = Message(id: int, fromBot: bool)

  /** What `update_channel_content` does to the channel, in order. */
  datatype ChannelAction = SetTopic(topic: string) | Delete(id: int) | Send | Edit(id: int)

  /** How many recent messages are looked at. */
  const HistoryWindow: nat := 10

  /** The ids of the bot's messages among `msgs`, in order. */
  function BotIds(msgs: seq<Message>): (ids: seq<int>)
    ensures |ids| <= |msgs|
    ensures forall id :: id in ids <==> Message(id, true) in msgs
    decreases |msgs|
  {
    if |msgs| == 0 then []
    else
      var rest := BotIds(msgs[1..]);
      assert forall m :: m in msgs <==> m == msgs[0] || m in msgs[1..];
      (if msgs[0].fromBot then [msgs[0].id] else []) + rest
  }

  /** The most recent messages `channel.history(limit=10)` yields. */
  function Window(history: seq<Message>): seq<Message>
  {
    if |history| <= HistoryWindow then history else history[..HistoryWindow]
  }

  /** The topic edit, when a non-empty topic differs from the current one. */
  function TopicActions(current: Option<string>, topic: Option<string>): seq<ChannelAction>
  {
    if topic.Some? && topic.value != "" && current != Some(topic.value) then [SetTopic(topic.value)] else []
  }

  /** One deletion per id. */
  function Deletes(ids: seq<int>): (acts: seq<ChannelAction>)
    ensures |acts| == |ids|
    ensures forall i :: 0 <= i < |ids| ==> acts[i] == Delete(ids[i])
  {
    seq(|ids|, i requires 0 <= i < |ids| => Delete(ids[i]))
  }

  /**
    The refresh rule: with no earlier bot message, send; with a file or with
    several earlier bot messages, delete them all and send; with exactly one
    and no file, edit it.
  */
  function Refresh(bot: seq<int>, hasFile: bool): seq<ChannelAction>
  {
    if |bot| == 0 then [Send]
    else if hasFile || |bot| > 1 then Deletes(bot) + [Send]
    else [Edit(bot[0])]
  }

  /** Every refresh ends with exactly one message posted or edited, edits only
      the single earlier bot message when no file comes with it, and deletes
      exactly the earlier bot messages otherwise. */
  lemma RefreshOutcome(bot: seq<int>, hasFile: bool)
    ensures var acts := Refresh(bot, hasFile);
      && |acts| >= 1
      && (acts[|acts| - 1] == Send || acts[|acts| - 1].Edit?)
      && (forall i :: 0 <= i < |acts| - 1 ==> acts[i].Delete?)
      && (acts[|acts| - 1].Edit? <==> |bot| == 1 && !hasFile)
      && (acts[|acts| - 1].Edit? ==> acts == [Edit(bot[0])])
      && (forall id :: Delete(id) in acts <==> id in bot && (hasFile || |bot| > 1))
  {
    var acts := Refresh(bot, hasFile);
    if |bot| > 0 && (hasFile || |bot| > 1) {
      assert acts == Deletes(bot) + [Send];
      forall id | Delete(id) in acts
        ensures id in bot
      {
        var i :| 0 <= i < |acts| && acts[i] == Delete(id);
        assert i < |bot|;
      }
      forall id | id in bot
        ensures Delete(id) in acts
      {
        var i :| 0 <= i < |bot| && bot[i] == id;
        assert acts[i] == Delete(id);
      }
    }
  }

  /**
    `update_channel_content`: nothing for a missing channel; otherwise the
    topic edit if needed, then the refresh of the bot's message among the ten
    most recent ones.
  */
  method UpdateChannelContent(present: bool, current: Option<string>, topic: Option<string>,
                              hasFile: bool, history: seq<Message>) returns (actions: seq<ChannelAction>)
    ensures !present ==> actions == []
    ensures present ==> actions == TopicActions(current, topic) + Refresh(BotIds(Window(history)), hasFile)
  {
    if !present {
      return [];
    }
    var bot := CollectBotIds(Window(history));
    var refresh: seq<ChannelAction>;
    if |bot| > 0 {
      if hasFile || |bot| > 1 {
        var deletes := DeleteAll(bot);
        refresh := deletes + [Send];
      } else {
        refresh := [Edit(bot[0])];
      }
    } else {
      refresh := [Send];
    }
    actions := TopicActions(current, topic) + refresh;
  }

  /** The loop over the recent history keeping the bot's messages. */
  method CollectBotIds(window: seq<Message>) returns (bot: seq<int>)
    ensures bot == BotIds(window)
  {
    bot := [];
    var i := 0;
    while i < |window|
      invariant 0 <= i <= |window|
      invariant bot == BotIds(window[..i])
    {
      assert BotIds(window[..i + 1]) == bot + (if window[i].fromBot then [window[i].id] else []) by {
        BotIdsSnoc(window[..i], window[i]);
        assert window[..i + 1] == window[..i] + [window[i]];
      }
      if window[i].fromBot {
        bot := bot + [window[i].id];
      }
      i := i + 1;
    }
    assert window[..i] == window;
  }

  /** The loop deleting every earlier bot message, in order. */
  method DeleteAll(bot: seq<int>) returns (deletes: seq<ChannelAction>)
    ensures deletes == Deletes(bot)
  {
    deletes := [];
    var k := 0;
    while k < |bot|
      invariant 0 <= k <= |bot|
      invariant |deletes| == k
      invariant forall i :: 0 <= i < k ==> deletes[i] == Delete(bot[i])
    {
      deletes := deletes + [Delete(bot[k])];
      k := k + 1;
    }
  }

  /** Looking at one more message: its id is added when the bot wrote it. */
  lemma {:induction false} BotIdsSnoc(msgs: seq<Message>, m: Message)
    ensures BotIds(msgs + [m]) == BotIds(msgs) + (if m.fromBot then [m.id] else [])
    decreases |msgs|
  {
    if |msgs| == 0 {
      assert BotIds([m]) == (if m.fromBot then [m.id] else []) + BotIds([]);
    } else {
      assert (msgs + [m])[1..] == msgs[1..] + [m];
      BotIdsSnoc(msgs[1..], m);
    }
  }

  // ---------------------------------------------------------------------------
  // Ecosystem channel topics
  // ---------------------------------------------------------------------------

  /** One language of an ecosystem topic: the flag and the first 50
      characters of the description. */
  function TopicPart(flag: string, description: string): (part: string)
    ensures |part| <= |flag| + 1 + 50
  {
    flag + " " + (if |description| <= 50 then description else description[..50])
  }

  /** A joined text is no longer than its pieces' bound plus the separators. */
  lemma {:induction false} JoinBound(sep: string, parts: seq<string>, m: nat)
    requires forall i :: 0 <= i < |parts| ==> |parts[i]| <= m
    ensures |Join(sep, parts)| <= |parts| * (m + |sep|)
    decreases |parts|
  {
    if |parts| > 1 {
      JoinBound(sep, parts[1..], m);
    }
  }

  /** The topic of an ecosystem channel: the five parts joined by " | ", cut
      to the field limit. */
  function EcosystemTopic(parts: seq<string>): string
  {
    Truncate(Join(" | ", parts))
  }

  /** Five parts of flags of two code points never reach the limit, so the
      topic is never cut. */
  lemma EcosystemTopicFits(flags: seq<string>, descriptions: seq<string>)
    requires |flags| == |descriptions| == 5
    requires forall i :: 0 <= i < 5 ==> |flags[i]| == 2
    ensures var parts := seq(5, i requires 0 <= i < 5 => TopicPart(flags[i], descriptions[i]));
      EcosystemTopic(parts) == Join(" | ", parts)
  {
    var parts := seq(5, i requires 0 <= i < 5 => TopicPart(flags[i], descriptions[i]));
    JoinBound(" | ", parts, 53);
  }
}
