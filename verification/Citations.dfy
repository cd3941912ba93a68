/**
 Citation numbering of a formatted report: evidence ids in prose and in reference lists
 become numbered markers, and the footnotes say what each number stands for.
 */
module Citations {
  import opened Wrappers
  import opened EvidenceMerge
  import opened ToolPolicy

  // ----- ids inside a text --------------------------------------------------

  predicate StartsWith(text: string, prefix: string)
  {
    |prefix| <= |text| && text[..|prefix|] == prefix
  }

  /** Ids in the order the pattern tries them: longest first, equals in their given order. */
  predicate LongestFirst(ids: seq<string>)
  {
    forall i, j | 0 <= i < j < |ids| :: |ids[i]| >= |ids[j]|
  }

  function InsertByLength(ids: seq<string>, id: string): seq<string>
  {
    if ids == [] then [id]
    else if |ids[|ids| - 1]| >= |id| then ids + [id]
    else InsertByLength(ids[..|ids| - 1], id) + [ids[|ids| - 1]]
  }

  /** The ids that can be matched at all, sorted for the pattern. */
  function PatternIds(keys: seq<string>): seq<string>
  {
    if keys == [] then []
    else
      var before := PatternIds(keys[..|keys| - 1]);
      if keys[|keys| - 1] == "" then before else InsertByLength(before, keys[|keys| - 1])
  }

  /** What an alternation of these ids matches at the start of a text. */
  function FirstMatch(ids: seq<string>, text: string): Option<string>
  {
    if ids == [] then None
    else if StartsWith(text, ids[0]) then Some(ids[0])
    else FirstMatch(ids[1..], text)
  }

  lemma {:induction false} InsertedByLength(ids: seq<string>, id: string)
    requires LongestFirst(ids)
    ensures LongestFirst(InsertByLength(ids, id))
    ensures forall x :: x in InsertByLength(ids, id) <==> x in ids || x == id
  {
    if ids != [] && |ids[|ids| - 1]| < |id| {
      var last := ids[|ids| - 1];
      var front := ids[..|ids| - 1];
      InsertedByLength(front, id);
      assert ids == front + [last];
      var grown := InsertByLength(front, id);
      forall i | 0 <= i < |grown| ensures |grown[i]| >= |last| {
        assert grown[i] in grown;
      }
    }
  }

  lemma {:induction false} PatternIdsAreKeys(keys: seq<string>)
    ensures LongestFirst(PatternIds(keys))
    ensures forall id :: id in PatternIds(keys) <==> id in keys && id != ""
  {
    if keys != [] {
      var k := |keys| - 1;
      PatternIdsAreKeys(keys[..k]);
      assert keys == keys[..k] + [keys[k]];
      InsertedByLength(PatternIds(keys[..k]), keys[k]);
    }
  }

  /** The longest known id at this place, whenever one is there. */
  lemma {:induction false} FirstMatchIsLongest(ids: seq<string>, text: string)
    requires LongestFirst(ids)
    ensures match FirstMatch(ids, text)
            case None => forall id | id in ids :: !StartsWith(text, id)
            case Some(found) =>
              && found in ids && StartsWith(text, found)
              && forall id | id in ids && StartsWith(text, id) :: |id| <= |found|
  {
    if ids != [] {
      assert ids == [ids[0]] + ids[1..];
      FirstMatchIsLongest(ids[1..], text);
    }
  }

  datatype Token = Letter(c: char) | Cited(id: string)

  /** The first pass over a text, left to right: known ids found, the rest kept. */
  function Tokens(text: string, ids: seq<string>): seq<Token>
    decreases |text|
  {
    if text == "" then []
    else
      var found := FirstMatch(ids, text);
      if found.Some? && 0 < |found.value| <= |text| then [Cited(found.value)] + Tokens(text[|found.value|..], ids)
      else [Letter(text[0])] + Tokens(text[1..], ids)
  }

  function Spelled(tokens: seq<Token>): string
  {
    if tokens == [] then ""
    else (match tokens[0] case Letter(c) => [c] case Cited(id) => id) + Spelled(tokens[1..])
  }

  /** Finding ids loses nothing: spelled out again, the tokens are the text. */
  lemma {:induction false} TokensSpellTheText(text: string, ids: seq<string>)
    requires LongestFirst(ids)
    ensures Spelled(Tokens(text, ids)) == text
    decreases |text|
  {
    if text != "" {
      var found := FirstMatch(ids, text);
      FirstMatchIsLongest(ids, text);
      if found.Some? && 0 < |found.value| {
        var rest := text[|found.value|..];
        TokensSpellTheText(rest, ids);
        assert Tokens(text, ids)[1..] == Tokens(rest, ids);
        assert text == found.value + rest;
      } else {
        TokensSpellTheText(text[1..], ids);
        assert Tokens(text, ids)[1..] == Tokens(text[1..], ids);
        assert text == [text[0]] + text[1..];
      }
    }
  }

  /** The ids a text cites, in reading order. */
  function InText(tokens: seq<Token>): seq<string>
  {
    if tokens == [] then []
    else InText(tokens[..|tokens| - 1]) + (match tokens[|tokens| - 1] case Letter(_) => [] case Cited(id) => [id])
  }

  /** A letter is a token where no known id begins; a citation is the longest that does. */
  predicate TokenFits(token: Token, rest: string, ids: seq<string>)
  {
    match token
    case Letter(c) => rest != "" && rest[0] == c && forall id | id in ids && id != "" :: !StartsWith(rest, id)
    case Cited(found) =>
      found in ids && found != "" && StartsWith(rest, found)
      && forall id | id in ids && StartsWith(rest, id) :: |id| <= |found|
  }

  lemma FirstTokenFits(text: string, ids: seq<string>)
    requires LongestFirst(ids) && text != ""
    ensures Tokens(text, ids) != [] && TokenFits(Tokens(text, ids)[0], text, ids)
  {
    FirstMatchIsLongest(ids, text);
    hide FirstMatch, LongestFirst;
  }

  /** What is left of a text after its first token. */
  function Rest(text: string, ids: seq<string>): string
    requires text != ""
  {
    var found := FirstMatch(ids, text);
    if found.Some? && 0 < |found.value| <= |text| then text[|found.value|..] else text[1..]
  }

  lemma TokensGoOn(text: string, ids: seq<string>)
    requires text != ""
    ensures Tokens(text, ids)[1..] == Tokens(Rest(text, ids), ids) && |Rest(text, ids)| < |text|
  {
    hide FirstMatch;
  }

  /**
   Reading on from any token: a letter is one where no known id begins, a citation is the
   longest known id that begins there.
   */
  lemma {:induction false} EveryKnownIdIsFound(text: string, ids: seq<string>, k: nat)
    requires LongestFirst(ids) && k < |Tokens(text, ids)|
    ensures TokenFits(Tokens(text, ids)[k], Spelled(Tokens(text, ids)[k..]), ids)
    decreases |text|
  {
    hide TokenFits, LongestFirst, Rest;
    var tokens := Tokens(text, ids);
    if k == 0 {
      TokensSpellTheText(text, ids);
      FirstTokenFits(text, ids);
      assert tokens[0..] == tokens;
    } else {
      TokensGoOn(text, ids);
      EveryKnownIdIsFound(Rest(text, ids), ids, k - 1);
      assert tokens[k..] == tokens[1..][k - 1..];
    }
  }

  // ----- numbering ----------------------------------------------------------

  /** refNumber's list after this id was asked for. */
  function Noted(refs: seq<string>, id: string): seq<string>
  {
    if id in refs then refs else refs + [id]
  }

  function NotedAll(refs: seq<string>, ids: seq<string>): seq<string>
  {
    if ids == [] then refs else Noted(NotedAll(refs, ids[..|ids| - 1]), ids[|ids| - 1])
  }

  function NumberOf(refs: seq<string>, id: string): nat { IndexOf(refs, id) + 1 }

  function Numbers(refs: seq<string>, ids: seq<string>): seq<nat>
  {
    seq(|ids|, i requires 0 <= i < |ids| => NumberOf(refs, ids[i]))
  }

  lemma {:induction false} NotedAllExtends(refs: seq<string>, ids: seq<string>)
    ensures refs <= NotedAll(refs, ids)
    ensures forall id :: id in NotedAll(refs, ids) <==> id in refs || id in ids
    ensures Distinct(refs) ==> Distinct(NotedAll(refs, ids))
  {
    if ids != [] {
      var k := |ids| - 1;
      NotedAllExtends(refs, ids[..k]);
      assert ids == ids[..k] + [ids[k]];
    }
  }

  lemma {:induction false} NotedAllJoins(refs: seq<string>, a: seq<string>, b: seq<string>)
    ensures NotedAll(NotedAll(refs, a), b) == NotedAll(refs, a + b)
  {
    if b == [] {
      assert a + b == a;
    } else {
      assert (a + b)[..|a + b| - 1] == a + b[..|b| - 1];
      NotedAllJoins(refs, a, b[..|b| - 1]);
    }
  }

  lemma {:induction false} IndexStays(refs: seq<string>, more: seq<string>, id: string)
    requires refs <= more && id in refs
    ensures IndexOf(more, id) == IndexOf(refs, id)
  {
    if refs[0] != id {
      assert refs == [refs[0]] + refs[1..];
      assert refs[1..] <= more[1..];
      IndexStays(refs[1..], more[1..], id);
    }
  }

  lemma NumbersStay(refs: seq<string>, more: seq<string>, ids: seq<string>)
    requires refs <= more && forall id | id in ids :: id in refs
    ensures Numbers(more, ids) == Numbers(refs, ids)
  {
    forall i | 0 <= i < |ids| ensures NumberOf(more, ids[i]) == NumberOf(refs, ids[i]) {
      IndexStays(refs, more, ids[i]);
    }
  }

  /**
   The numbering of a list of citations: no id twice, every cited id and no other, each
   citation leading back to its id, and numbers given in order of first appearance.
   */
  lemma NumberingIsByFirstAppearance(ids: seq<string>)
    ensures var refs := NotedAll([], ids);
            && Distinct(refs)
            && (forall id :: id in refs <==> id in ids)
            && (forall i | 0 <= i < |ids| :: refs[NumberOf(refs, ids[i]) - 1] == ids[i])
            && (forall a, b | 0 <= a < b < |refs| :: IndexOf(ids, refs[a]) < IndexOf(ids, refs[b]))
  {
    NotedAllExtends([], ids);
    FirstAppearancesRise(ids);
  }

  lemma {:induction false} FirstAppearancesRise(ids: seq<string>)
    ensures var refs := NotedAll([], ids);
            forall a, b | 0 <= a < b < |refs| :: IndexOf(ids, refs[a]) < IndexOf(ids, refs[b])
  {
    if ids != [] {
      var k := |ids| - 1;
      FirstAppearancesRise(ids[..k]);
      NotedAllExtends([], ids[..k]);
      var before := NotedAll([], ids[..k]);
      var refs := NotedAll([], ids);
      assert ids[..k] <= ids;
      forall a, b | 0 <= a < b < |refs| ensures IndexOf(ids, refs[a]) < IndexOf(ids, refs[b]) {
        assert before[a] in before;
        IndexStays(ids[..k], ids, before[a]);
        if b < |before| {
          assert before[b] in before;
          IndexStays(ids[..k], ids, before[b]);
        } else {
          NotBefore(ids, k);
        }
      }
    }
  }

  lemma {:induction false} NotBefore(ids: seq<string>, k: nat)
    requires k < |ids| && ids[k] !in ids[..k]
    ensures IndexOf(ids, ids[k]) == k
  {
    if k > 0 {
      assert ids[0] == ids[..k][0];
      assert ids[1..][..k - 1] == ids[..k][1..];
      NotBefore(ids[1..], k - 1);
    }
  }
}
