/**
 The formatted report: sections in the template's order, every citation numbered through
 one shared list, and the footnotes built last.
 */
module ReportFormat {
  import opened Wrappers
  import opened EvidenceMerge
  import opened ToolPolicy
  import opened Citations
  import opened Reconcile

  datatype Declared = Declared(id: string, heading: string, required: bool, requiresProblemEvent: bool)

  /** The template's sections, the evidence ids, and the text clean-ups, which are parameters. */
  datatype Layout = Layout(declared: seq<Declared>, keys: seq<string>, trim: string -> string,
                           untagged: string -> string)

  datatype Piece = Plain(c: char) | Marker(n: nat)

  datatype Line = Line(tag: Option<string>, text: seq<Piece>, support: seq<nat>, against: seq<nat>)

  datatype Block = Missing(heading: string) | Filled(heading: string, body: seq<Piece>, lines: seq<Line>)

  // ----- what is shown, and what it cites in reading order ------------------

  function Marked(tokens: seq<Token>, refs: seq<string>): seq<Piece>
  {
    seq(|tokens|, i requires 0 <= i < |tokens| =>
      match tokens[i] case Letter(c) => Plain(c) case Cited(id) => Marker(NumberOf(refs, id)))
  }

  /** A text with its markers replaced by what their footnotes name. */
  function Expanded(pieces: seq<Piece>, refs: seq<string>): string
  {
    if pieces == [] then ""
    else
      (match pieces[0] case Plain(c) => [c] case Marker(n) => if 1 <= n <= |refs| then refs[n - 1] else "")
      + Expanded(pieces[1..], refs)
  }

  function ShownText(layout: Layout, item: Item): string
  {
    if item.tag.Some? && item.tag.value != "" then layout.untagged(item.text) else item.text
  }

  function TextOf(layout: Layout, text: string): seq<Token> { Tokens(text, PatternIds(layout.keys)) }

  /** An item cites its text first, then its support, then what speaks against it. */
  function ItemCites(layout: Layout, item: Item): seq<string>
  {
    InText(TextOf(layout, ShownText(layout, item))) + item.evidenceRefs + item.counterRefs
  }

  function ItemsCite(layout: Layout, items: seq<Item>): seq<string>
  {
    if items == [] then []
    else ItemsCite(layout, items[..|items| - 1]) + ItemCites(layout, items[|items| - 1])
  }

  function RenderedItem(layout: Layout, item: Item, refs: seq<string>): Line
  {
    Line(item.tag, Marked(TextOf(layout, ShownText(layout, item)), refs), Numbers(refs, item.evidenceRefs),
         Numbers(refs, item.counterRefs))
  }

  function RenderedItems(layout: Layout, items: seq<Item>, refs: seq<string>): seq<Line>
  {
    seq(|items|, i requires 0 <= i < |items| => RenderedItem(layout, items[i], refs))
  }

  /** The last section the writer gave this id. */
  function Given(sections: seq<Section>, id: string): Option<Section>
  {
    if sections == [] then None
    else if sections[|sections| - 1].id == id then Some(sections[|sections| - 1])
    else Given(sections[..|sections| - 1], id)
  }

  function BodyOf(layout: Layout, section: Option<Section>): string
  {
    if section.Some? && section.value.body.Some? && section.value.body.value != ""
    then layout.trim(section.value.body.value)
    else ""
  }

  function ItemsOf(section: Option<Section>): seq<Item>
  {
    if section.Some? then section.value.items else []
  }

  /** A real problem event has a numeric id; synthetic ones license nothing. */
  predicate IsProblemEvent(key: string)
  {
    StartsWith(key, "zbx:event:") && IsDigits(key[|"zbx:event:"|..])
  }

  predicate Skipped(layout: Layout, declared: Declared)
  {
    declared.requiresProblemEvent && !exists key | key in layout.keys :: IsProblemEvent(key)
  }

  function SectionCites(layout: Layout, sections: seq<Section>, declared: Declared): seq<string>
  {
    if Skipped(layout, declared) then []
    else
      var given := Given(sections, declared.id);
      InText(TextOf(layout, BodyOf(layout, given))) + ItemsCite(layout, ItemsOf(given))
  }

  function RenderedSection(layout: Layout, sections: seq<Section>, declared: Declared, refs: seq<string>): seq<Block>
  {
    if Skipped(layout, declared) then []
    else
      var given := Given(sections, declared.id);
      var body := BodyOf(layout, given);
      if body == "" && ItemsOf(given) == [] then (if declared.required then [Missing(declared.heading)] else [])
      else [Filled(declared.heading, Marked(TextOf(layout, body), refs), RenderedItems(layout, ItemsOf(given), refs))]
  }

  function ReportCites(layout: Layout, sections: seq<Section>, declared: seq<Declared>): seq<string>
  {
    if declared == [] then []
    else
      ReportCites(layout, sections, declared[..|declared| - 1])
      + SectionCites(layout, sections, declared[|declared| - 1])
  }

  function RenderedReport(layout: Layout, sections: seq<Section>, declared: seq<Declared>,
                          refs: seq<string>): seq<Block>
  {
    if declared == [] then []
    else
      RenderedReport(layout, sections, declared[..|declared| - 1], refs)
      + RenderedSection(layout, sections, declared[|declared| - 1], refs)
  }

  // ----- numbers, once given, stay ------------------------------------------

  predicate CitesWithin(ids: seq<string>, refs: seq<string>) { forall id | id in ids :: id in refs }

  lemma {:induction false} CitedTokens(tokens: seq<Token>)
    ensures forall i | 0 <= i < |tokens| && tokens[i].Cited? :: tokens[i].id in InText(tokens)
  {
    if tokens != [] { CitedTokens(tokens[..|tokens| - 1]); }
  }

  lemma MarkedStays(tokens: seq<Token>, refs: seq<string>, more: seq<string>)
    requires refs <= more && CitesWithin(InText(tokens), refs)
    ensures Marked(tokens, more) == Marked(tokens, refs)
  {
    CitedTokens(tokens);
    forall i | 0 <= i < |tokens| && tokens[i].Cited?
      ensures NumberOf(more, tokens[i].id) == NumberOf(refs, tokens[i].id)
    {
      IndexStays(refs, more, tokens[i].id);
    }
  }

  lemma ItemStays(layout: Layout, item: Item, refs: seq<string>, more: seq<string>)
    requires refs <= more && CitesWithin(ItemCites(layout, item), refs)
    ensures RenderedItem(layout, item, more) == RenderedItem(layout, item, refs)
  {
    MarkedStays(TextOf(layout, ShownText(layout, item)), refs, more);
    NumbersStay(refs, more, item.evidenceRefs);
    NumbersStay(refs, more, item.counterRefs);
  }

  lemma {:induction false} ItemsStay(layout: Layout, items: seq<Item>, refs: seq<string>, more: seq<string>)
    requires refs <= more && CitesWithin(ItemsCite(layout, items), refs)
    ensures RenderedItems(layout, items, more) == RenderedItems(layout, items, refs)
  {
    if items != [] {
      var k := |items| - 1;
      ItemsStay(layout, items[..k], refs, more);
      ItemStays(layout, items[k], refs, more);
      assert RenderedItems(layout, items, more)
          == RenderedItems(layout, items[..k], more) + [RenderedItem(layout, items[k], more)];
      assert RenderedItems(layout, items, refs)
          == RenderedItems(layout, items[..k], refs) + [RenderedItem(layout, items[k], refs)];
    }
  }

  lemma SectionStays(layout: Layout, sections: seq<Section>, declared: Declared, refs: seq<string>, more: seq<string>)
    requires refs <= more && CitesWithin(SectionCites(layout, sections, declared), refs)
    ensures RenderedSection(layout, sections, declared, more) == RenderedSection(layout, sections, declared, refs)
  {
    if !Skipped(layout, declared) {
      var given := Given(sections, declared.id);
      MarkedStays(TextOf(layout, BodyOf(layout, given)), refs, more);
      ItemsStay(layout, ItemsOf(given), refs, more);
    }
  }

  lemma {:induction false} ReportStays(layout: Layout, sections: seq<Section>, declared: seq<Declared>,
                                       refs: seq<string>, more: seq<string>)
    requires refs <= more && CitesWithin(ReportCites(layout, sections, declared), refs)
    ensures RenderedReport(layout, sections, declared, more) == RenderedReport(layout, sections, declared, refs)
  {
    if declared != [] {
      ReportStays(layout, sections, declared[..|declared| - 1], refs, more);
      SectionStays(layout, sections, declared[|declared| - 1], refs, more);
    }
  }

  // ----- nothing is lost ----------------------------------------------------

  lemma {:induction false} ExpandedTokens(tokens: seq<Token>, refs: seq<string>)
    requires forall i | 0 <= i < |tokens| && tokens[i].Cited? :: tokens[i].id in refs
    ensures Expanded(Marked(tokens, refs), refs) == Spelled(tokens)
  {
    if tokens != [] {
      var pieces := Marked(tokens, refs);
      assert pieces[1..] == Marked(tokens[1..], refs);
      ExpandedTokens(tokens[1..], refs);
      if tokens[0].Cited? { assert pieces[0] == Marker(NumberOf(refs, tokens[0].id)); }
      hide Marked, IndexOf;
    }
  }

  /** Every numbered text, its markers replaced by what their footnotes name, is the text again. */
  lemma MarkersExpandToTheText(layout: Layout, text: string, refs: seq<string>)
    requires CitesWithin(InText(TextOf(layout, text)), refs)
    ensures Expanded(Marked(TextOf(layout, text), refs), refs) == text
  {
    PatternIdsAreKeys(layout.keys);
    TokensSpellTheText(text, PatternIds(layout.keys));
    CitedTokens(TextOf(layout, text));
    ExpandedTokens(TextOf(layout, text), refs);
  }

  /** An item's text is shown whole, but for a tag of its own that repeats in it. */
  lemma ItemsExpandToTheirText(layout: Layout, item: Item, refs: seq<string>)
    requires CitesWithin(ItemCites(layout, item), refs)
    ensures Expanded(RenderedItem(layout, item, refs).text, refs)
            == if item.tag.Some? && |item.tag.value| > 0 then layout.untagged(item.text) else item.text
  {
    MarkersExpandToTheText(layout, ShownText(layout, item), refs);
  }

  // ----- which sections are shown -------------------------------------------

  /** Section i is the last the writer gave this id. */
  predicate IsLastGiven(sections: seq<Section>, id: string, i: nat)
  {
    i < |sections| && sections[i].id == id && forall j | i < j < |sections| :: sections[j].id != id
  }

  /** The writer gave this section something to show. */
  predicate HasContent(layout: Layout, sections: seq<Section>, id: string)
  {
    exists i | 0 <= i < |sections| :: IsLastGiven(sections, id, i) &&
      (|sections[i].items| > 0
       || (sections[i].body.Some? && |sections[i].body.value| > 0 && |layout.trim(sections[i].body.value)| > 0))
  }

  /** Some evidence is a problem event with a number for an id. */
  predicate HasProblemEvent(layout: Layout)
  {
    exists k | 0 <= k < |layout.keys| ::
      && |layout.keys[k]| > 10 && layout.keys[k][..10] == "zbx:event:"
      && forall i | 10 <= i < |layout.keys[k]| :: '0' <= layout.keys[k][i] <= '9'
  }

  predicate Shown(layout: Layout, sections: seq<Section>, declared: Declared)
  {
    && (declared.requiresProblemEvent ==> HasProblemEvent(layout))
    && (declared.required || HasContent(layout, sections, declared.id))
  }

  function ShownOf(layout: Layout, sections: seq<Section>, declared: seq<Declared>): seq<Declared>
  {
    if declared == [] then []
    else
      var d := declared[|declared| - 1];
      ShownOf(layout, sections, declared[..|declared| - 1]) + (if Shown(layout, sections, d) then [d] else [])
  }

  lemma {:induction false} GivenIsLast(sections: seq<Section>, id: string)
    ensures match Given(sections, id)
            case None => forall i | 0 <= i < |sections| :: sections[i].id != id
            case Some(section) => exists i: nat :: IsLastGiven(sections, id, i) && sections[i] == section
  {
    if sections != [] {
      var k := |sections| - 1;
      if sections[k].id == id {
        assert IsLastGiven(sections, id, k);
      } else {
        GivenIsLast(sections[..k], id);
        if Given(sections[..k], id).Some? {
          var i: nat :| IsLastGiven(sections[..k], id, i) && sections[..k][i] == Given(sections[..k], id).value;
          forall j | i < j < |sections| ensures sections[j].id != id {
            if j < k { assert sections[..k][j] == sections[j]; }
          }
          assert IsLastGiven(sections, id, i);
        } else {
          assert forall i | 0 <= i < k :: sections[..k][i] == sections[i];
        }
      }
    }
  }

  lemma ContentMeans(layout: Layout, sections: seq<Section>, id: string)
    ensures HasContent(layout, sections, id)
            <==> BodyOf(layout, Given(sections, id)) != "" || ItemsOf(Given(sections, id)) != []
  {
    GivenIsLast(sections, id);
    if Given(sections, id).Some? {
      var i: nat :| IsLastGiven(sections, id, i) && sections[i] == Given(sections, id).value;
      forall j | 0 <= j < |sections| && IsLastGiven(sections, id, j) ensures j == i {}
    }
    hide Given;
  }

  lemma ProblemEventMeans(layout: Layout)
    ensures HasProblemEvent(layout) <==> exists key | key in layout.keys :: IsProblemEvent(key)
  {
    forall key ensures IsProblemEvent(key)
      <==> |key| > 10 && key[..10] == "zbx:event:" && forall i | 10 <= i < |key| :: '0' <= key[i] <= '9'
    {
      if |key| > 10 {
        var digits := key[10..];
        assert forall i | 10 <= i < |key| :: digits[i - 10] == key[i] && digits[i - 10] in digits;
      }
    }
    hide IsProblemEvent;
    if key :| key in layout.keys && IsProblemEvent(key) {
      var k :| 0 <= k < |layout.keys| && layout.keys[k] == key;
    }
  }

  /**
   The report has the template's sections in the template's order: those shown, a required
   one that the writer left empty with a placeholder.
   */
  lemma {:induction false} SectionsFollowTheTemplate(layout: Layout, sections: seq<Section>, declared: seq<Declared>,
                                                     refs: seq<string>)
    ensures var blocks := RenderedReport(layout, sections, declared, refs);
            var shown := ShownOf(layout, sections, declared);
            && |blocks| == |shown|
            && forall n | 0 <= n < |blocks| ::
                 blocks[n].heading == shown[n].heading
                 && (blocks[n].Missing? <==> !HasContent(layout, sections, shown[n].id))
  {
    if declared != [] {
      var k := |declared| - 1;
      SectionsFollowTheTemplate(layout, sections, declared[..k], refs);
      ContentMeans(layout, sections, declared[k].id);
      ProblemEventMeans(layout);
      hide HasContent, HasProblemEvent, Given, BodyOf, ItemsOf, IsProblemEvent, Marked, TextOf, RenderedItems;
    }
  }

  // ----- the markers a reader meets -----------------------------------------

  function MarksIn(pieces: seq<Piece>): seq<nat>
  {
    if pieces == [] then []
    else MarksIn(pieces[..|pieces| - 1]) + (match pieces[|pieces| - 1] case Plain(_) => [] case Marker(n) => [n])
  }

  function LineMarks(lines: seq<Line>): seq<nat>
  {
    if lines == [] then []
    else
      var last := lines[|lines| - 1];
      LineMarks(lines[..|lines| - 1]) + (MarksIn(last.text) + last.support + last.against)
  }

  /** Every marker of the document, in reading order. */
  function Marks(blocks: seq<Block>): seq<nat>
  {
    if blocks == [] then []
    else
      Marks(blocks[..|blocks| - 1])
      + (match blocks[|blocks| - 1]
         case Missing(_) => []
         case Filled(_, body, lines) => MarksIn(body) + LineMarks(lines))
  }

  lemma NumbersJoin(refs: seq<string>, a: seq<string>, b: seq<string>)
    ensures Numbers(refs, a + b) == Numbers(refs, a) + Numbers(refs, b)
  {
  }

  lemma {:induction false} TextMarks(tokens: seq<Token>, refs: seq<string>)
    ensures MarksIn(Marked(tokens, refs)) == Numbers(refs, InText(tokens))
  {
    if tokens != [] {
      var k := |tokens| - 1;
      TextMarks(tokens[..k], refs);
      assert Marked(tokens, refs)[..k] == Marked(tokens[..k], refs);
      if tokens[k].Cited? { NumbersJoin(refs, InText(tokens[..k]), [tokens[k].id]); }
    }
  }

  lemma {:induction false} ItemMarks(layout: Layout, items: seq<Item>, refs: seq<string>)
    ensures LineMarks(RenderedItems(layout, items, refs)) == Numbers(refs, ItemsCite(layout, items))
  {
    hide NumberOf, Tokens;
    if items != [] {
      var k := |items| - 1;
      ItemMarks(layout, items[..k], refs);
      assert RenderedItems(layout, items, refs)[..k] == RenderedItems(layout, items[..k], refs);
      OneItemMarks(layout, items[k], refs);
      NumbersJoin(refs, ItemsCite(layout, items[..k]), ItemCites(layout, items[k]));
    }
  }

  lemma OneItemMarks(layout: Layout, item: Item, refs: seq<string>)
    ensures var line := RenderedItem(layout, item, refs);
            MarksIn(line.text) + line.support + line.against == Numbers(refs, ItemCites(layout, item))
  {
    hide NumberOf, Tokens, InText, MarksIn;
    var tokens := TextOf(layout, ShownText(layout, item));
    TextMarks(tokens, refs);
    NumbersJoin(refs, InText(tokens), item.evidenceRefs);
    NumbersJoin(refs, InText(tokens) + item.evidenceRefs, item.counterRefs);
  }

  lemma SectionMarks(layout: Layout, sections: seq<Section>, declared: Declared, refs: seq<string>)
    ensures Marks(RenderedSection(layout, sections, declared, refs))
            == Numbers(refs, SectionCites(layout, sections, declared))
  {
    hide NumberOf, Given, ItemsCite, RenderedItems;
    if !Skipped(layout, declared) {
      var given := Given(sections, declared.id);
      var body := BodyOf(layout, given);
      TextMarks(TextOf(layout, body), refs);
      ItemMarks(layout, ItemsOf(given), refs);
      NumbersJoin(refs, InText(TextOf(layout, body)), ItemsCite(layout, ItemsOf(given)));
      var blocks := RenderedSection(layout, sections, declared, refs);
      assert |blocks| > 0 ==> blocks[..|blocks| - 1] == [];
      if ItemsOf(given) == [] { NothingCited(layout); }
    }
  }

  lemma NothingCited(layout: Layout)
    ensures ItemsCite(layout, []) == [] && InText(TextOf(layout, "")) == []
  {
  }

  lemma {:induction false} MarksJoin(a: seq<Block>, b: seq<Block>)
    ensures Marks(a + b) == Marks(a) + Marks(b)
  {
    if b == [] {
      assert a + b == a;
    } else {
      assert (a + b)[..|a + b| - 1] == a + b[..|b| - 1];
      MarksJoin(a, b[..|b| - 1]);
    }
  }

  lemma {:induction false} ReportMarks(layout: Layout, sections: seq<Section>, declared: seq<Declared>,
                                       refs: seq<string>)
    ensures Marks(RenderedReport(layout, sections, declared, refs))
            == Numbers(refs, ReportCites(layout, sections, declared))
  {
    hide NumberOf, RenderedSection, SectionCites;
    if declared != [] {
      var k := |declared| - 1;
      ReportMarks(layout, sections, declared[..k], refs);
      SectionMarks(layout, sections, declared[k], refs);
      MarksJoin(RenderedReport(layout, sections, declared[..k], refs),
                RenderedSection(layout, sections, declared[k], refs));
      NumbersJoin(refs, ReportCites(layout, sections, declared[..k]), SectionCites(layout, sections, declared[k]));
    }
  }

  /**
   The numbering of a whole report: its markers in reading order are the numbers of what
   it cites in reading order; each leads to the footnote naming that id; no id has two
   footnotes; and numbers are given in order of first appearance.
   */
  lemma MarkersFollowFirstAppearance(layout: Layout, sections: seq<Section>)
    ensures var cites := ReportCites(layout, sections, layout.declared);
            var refs := NotedAll([], cites);
            var marks := Marks(RenderedReport(layout, sections, layout.declared, refs));
            && |marks| == |cites|
            && (forall i | 0 <= i < |cites| :: 1 <= marks[i] <= |refs| && refs[marks[i] - 1] == cites[i])
            && Distinct(refs) && (forall id :: id in refs <==> id in cites)
            && (forall a, b | 0 <= a < b < |refs| :: IndexOf(cites, refs[a]) < IndexOf(cites, refs[b]))
  {
    hide RenderedReport, ReportCites, Marks;
    var cites := ReportCites(layout, sections, layout.declared);
    var refs := NotedAll([], cites);
    ReportMarks(layout, sections, layout.declared, refs);
    NumberingIsByFirstAppearance(cites);
    assert forall i | 0 <= i < |cites| :: Numbers(refs, cites)[i] == NumberOf(refs, cites[i]);
  }

  // ----- the formatter ------------------------------------------------------

  function Footnotes(refs: seq<string>): seq<(nat, string)>
  {
    seq(|refs|, i requires 0 <= i < |refs| => (i + 1, refs[i]))
  }

  lemma NothingRead(refs: seq<string>)
    ensures NotedAll(refs, InText([])) == refs && Marked([], refs) == []
  {
  }

  lemma NothingLeft(text: string, ids: seq<string>)
    requires text == ""
    ensures Tokens(text, ids) == []
  {
  }

  lemma NextToken(text: string, ids: seq<string>)
    requires text != ""
    ensures var found := FirstMatch(ids, text);
            Tokens(text, ids)
            == if found.Some? && 0 < |found.value| <= |text|
                then [Cited(found.value)] + Tokens(text[|found.value|..], ids)
               else [Letter(text[0])] + Tokens(text[1..], ids)
  {
  }

  lemma NotedWithin(start: seq<string>, ids: seq<string>)
    ensures CitesWithin(ids, NotedAll(start, ids))
  {
    NotedAllExtends(start, ids);
  }

  lemma NoItems(layout: Layout, refs: seq<string>)
    ensures ItemsCite(layout, []) == [] && RenderedItems(layout, [], refs) == [] && NotedAll(refs, []) == refs
  {
  }

  lemma OneMoreItem(layout: Layout, items: seq<Item>, k: nat, refs: seq<string>)
    requires k < |items|
    ensures ItemsCite(layout, items[..k + 1]) == ItemsCite(layout, items[..k]) + ItemCites(layout, items[k])
    ensures RenderedItems(layout, items[..k + 1], refs)
            == RenderedItems(layout, items[..k], refs) + [RenderedItem(layout, items[k], refs)]
  {
    assert items[..k + 1][..k] == items[..k];
  }

  lemma LetterRead(start: seq<string>, read: seq<Token>, c: char)
    ensures InText(read + [Letter(c)]) == InText(read)
    ensures forall refs :: Marked(read + [Letter(c)], refs) == Marked(read, refs) + [Plain(c)]
  {
    assert (read + [Letter(c)])[..|read|] == read;
  }

  lemma IdRead(start: seq<string>, read: seq<Token>, id: string)
    ensures InText(read + [Cited(id)]) == InText(read) + [id]
    ensures NotedAll(start, InText(read) + [id]) == Noted(NotedAll(start, InText(read)), id)
    ensures var before := NotedAll(start, InText(read));
            var refs := Noted(before, id);
            Marked(read + [Cited(id)], refs) == Marked(read, before) + [Marker(NumberOf(refs, id))]
  {
    hide NumberOf;
    assert (read + [Cited(id)])[..|read|] == read;
    assert (InText(read) + [id])[..|InText(read)|] == InText(read);
    var before := NotedAll(start, InText(read));
    NotedWithin(start, InText(read));
    MarkedStays(read, before, Noted(before, id));
  }

  class Formatter {
    const layout: Layout
    var refs: seq<string>

    constructor (layout: Layout)
      ensures this.layout == layout && refs == []
    {
      this.layout := layout;
      refs := [];
    }

    method RefNumber(id: string) returns (n: nat)
      modifies this`refs
      ensures refs == Noted(old(refs), id) && n == NumberOf(refs, id)
    {
      var seen := IndexOf(refs, id);
      if seen < |refs| { return seen + 1; }
      refs := refs + [id];
      NotBefore(refs, |refs| - 1);
      return |refs|;
    }

    method Cite(ids: seq<string>) returns (marks: seq<nat>)
      modifies this`refs
      ensures refs == NotedAll(old(refs), ids) && marks == Numbers(refs, ids)
    {
      marks := [];
      assert ids[..0] == [];
      for k := 0 to |ids|
        invariant refs == NotedAll(old(refs), ids[..k]) && marks == Numbers(refs, ids[..k])
      {
        assert ids[..k + 1][..k] == ids[..k];
        ghost var before := refs;
        NotedAllExtends(old(refs), ids[..k]);
        var n := RefNumber(ids[k]);
        NumbersStay(before, refs, ids[..k]);
        marks := marks + [n];
        assert Numbers(refs, ids[..k + 1]) == Numbers(refs, ids[..k]) + [NumberOf(refs, ids[k])];
      }
      assert ids[..|ids|] == ids;
    }

    /** The first pass of citeInline: the text walked left to right. */
    method CiteInline(text: string) returns (pieces: seq<Piece>)
      modifies this`refs
      ensures refs == NotedAll(old(refs), InText(TextOf(layout, text)))
      ensures pieces == Marked(TextOf(layout, text), refs)
    {
      hide NumberOf, NotedAll, InText, Marked, FirstMatch, PatternIds, Tokens;
      var ids := PatternIds(layout.keys);
      ghost var read: seq<Token> := [];
      var at := 0;
      pieces := [];
      NothingRead(refs);
      assert text[0..] == text;
      while at < |text|
        invariant at <= |text|
        invariant Tokens(text, ids) == read + Tokens(text[at..], ids)
        invariant refs == NotedAll(old(refs), InText(read)) && pieces == Marked(read, refs)
      {
        var rest := text[at..];
        var found := FirstMatch(ids, rest);
        ghost var token := Letter(rest[0]);
        NextToken(rest, ids);
        if found.Some? && 0 < |found.value| <= |rest| {
          token := Cited(found.value);
          IdRead(old(refs), read, found.value);
          var n := RefNumber(found.value);
          pieces := pieces + [Marker(n)];
          assert text[at + |found.value|..] == rest[|found.value|..];
          at := at + |found.value|;
        } else {
          LetterRead(old(refs), read, rest[0]);
          pieces := pieces + [Plain(rest[0])];
          assert text[at + 1..] == rest[1..];
          at := at + 1;
        }
        assert read + ([token] + Tokens(text[at..], ids)) == (read + [token]) + Tokens(text[at..], ids);
        read := read + [token];
      }
      NothingLeft(text[at..], ids);
      assert read + [] == read;
    }

    method RenderItem(item: Item) returns (line: Line)
      modifies this`refs
      ensures refs == NotedAll(old(refs), ItemCites(layout, item)) && line == RenderedItem(layout, item, refs)
    {
      hide NumberOf, Tokens, InText;
      ghost var inText := InText(TextOf(layout, ShownText(layout, item)));
      NotedAllExtends(refs, inText);
      var text := CiteInline(ShownText(layout, item));
      ghost var one := refs;
      NotedAllExtends(one, item.evidenceRefs);
      var support := Cite(item.evidenceRefs);
      ghost var two := refs;
      NotedAllExtends(two, item.counterRefs);
      var against := Cite(item.counterRefs);
      NotedAllJoins(old(refs), inText, item.evidenceRefs);
      NotedAllJoins(old(refs), inText + item.evidenceRefs, item.counterRefs);
      MarkedStays(TextOf(layout, ShownText(layout, item)), one, refs);
      NumbersStay(two, refs, item.evidenceRefs);
      line := Line(item.tag, text, support, against);
    }

    method RenderItems(items: seq<Item>) returns (lines: seq<Line>)
      modifies this`refs
      ensures refs == NotedAll(old(refs), ItemsCite(layout, items)) && lines == RenderedItems(layout, items, refs)
    {
      hide RenderedItem, RenderedItems, ItemCites, ItemsCite, NotedAll, CitesWithin;
      lines := [];
      NothingRead(refs);
      NoItems(layout, refs);
      assert items[..0] == [];
      for k := 0 to |items|
        invariant refs == NotedAll(old(refs), ItemsCite(layout, items[..k]))
        invariant lines == RenderedItems(layout, items[..k], refs)
      {
        ghost var before := refs;
        ghost var cited := ItemsCite(layout, items[..k]);
        NotedWithin(old(refs), cited);
        NotedAllExtends(before, ItemCites(layout, items[k]));
        var line := RenderItem(items[k]);
        ItemsStay(layout, items[..k], before, refs);
        NotedAllJoins(old(refs), cited, ItemCites(layout, items[k]));
        OneMoreItem(layout, items, k, refs);
        lines := lines + [line];
      }
      assert items[..|items|] == items;
    }

    method RenderSection(sections: seq<Section>, declared: Declared) returns (blocks: seq<Block>)
      modifies this`refs
      ensures refs == NotedAll(old(refs), SectionCites(layout, sections, declared))
      ensures blocks == RenderedSection(layout, sections, declared, refs)
    {
      hide NumberOf, Tokens, InText, Given, RenderedItems, ItemsCite;
      if Skipped(layout, declared) { return []; }
      var given := Given(sections, declared.id);
      var text := BodyOf(layout, given);
      var items := ItemsOf(given);
      ghost var inBody := InText(TextOf(layout, text));
      NotedAllExtends(refs, inBody);
      var body := CiteInline(text);
      ghost var one := refs;
      NotedAllExtends(one, ItemsCite(layout, items));
      NotedAllJoins(old(refs), inBody, ItemsCite(layout, items));
      var lines := RenderItems(items);
      MarkedStays(TextOf(layout, text), one, refs);
      if text == "" && items == [] {
        return if declared.required then [Missing(declared.heading)] else [];
      }
      blocks := [Filled(declared.heading, body, lines)];
    }

    method RenderSections(sections: seq<Section>) returns (blocks: seq<Block>)
      requires refs == []
      modifies this`refs
      ensures refs == NotedAll([], ReportCites(layout, sections, layout.declared))
      ensures blocks == RenderedReport(layout, sections, layout.declared, refs)
    {
      hide RenderedSection, SectionCites, NotedAll, CitesWithin;
      var spec := layout.declared;
      blocks := [];
      assert spec[..0] == [];
      NothingRead([]);
      for k := 0 to |spec|
        invariant refs == NotedAll([], ReportCites(layout, sections, spec[..k]))
        invariant blocks == RenderedReport(layout, sections, spec[..k], refs)
      {
        assert spec[..k + 1][..k] == spec[..k];
        ghost var before := refs;
        ghost var cited := ReportCites(layout, sections, spec[..k]);
        NotedWithin([], cited);
        NotedAllExtends(before, SectionCites(layout, sections, spec[k]));
        var rendered := RenderSection(sections, spec[k]);
        ReportStays(layout, sections, spec[..k], before, refs);
        NotedAllJoins([], cited, SectionCites(layout, sections, spec[k]));
        blocks := blocks + rendered;
      }
      assert spec[..|spec|] == spec;
    }

    /** formatReport: the sections in the template's order, then the footnotes. */
    method Format(sections: seq<Section>) returns (blocks: seq<Block>, footnotes: seq<(nat, string)>)
      requires refs == []
      modifies this`refs
      ensures refs == NotedAll([], ReportCites(layout, sections, layout.declared))
      ensures blocks == RenderedReport(layout, sections, layout.declared, refs)
      ensures |footnotes| == |refs| && forall i | 0 <= i < |refs| :: footnotes[i] == (i + 1, refs[i])
    {
      hide NotedAll, ReportCites, RenderedReport;
      blocks := RenderSections(sections);
      footnotes := Footnotes(refs);
    }
  }
}
