/** The computations of the content studio page that do not touch the
    session: cleaning the model's text, the progress bar, the stored title,
    the history search and the per-type breakdown. */
module ContentStudio {
  import opened Common
  import opened Models

  // ---------------------------------------------------------------------
  // clean_model_output
  // ---------------------------------------------------------------------

  /** The position of the first `c` in `s`. */
  function IndexOf(s: string, c: char): (i: nat)
    requires c in s
    ensures i < |s| && s[i] == c && c !in s[..i]
  {
    if s[0] == c then 0
    else
      assert c in s[1..];
      var j := IndexOf(s[1..], c);
      assert s[..j + 1] == [s[0]] + s[1..][..j];
      1 + j
  }

  /** The regular expression `</?[^>]+>` matches at the start of `s`: a `<`,
      at least one character other than `>`, then a `>`. (The optional `/`
      is itself a character other than `>`, so it needs no case of its own.) */
  predicate OpensTag(s: string)
  {
    |s| >= 2 && s[0] == '<' && s[1] != '>' && '>' in s[1..]
  }

  /** Where that match ends: just after the first `>`. */
  function TagEnd(s: string): (e: nat)
    requires OpensTag(s)
    ensures 3 <= e <= |s| && s[e - 1] == '>' && '>' !in s[1..e - 1]
  {
    var j := IndexOf(s[1..], '>');
    assert s[1..][..j] == s[1..j + 1];
    j + 2
  }

  /** `re.sub(r"</?[^>]+>", "", s)`: scanning from the left, every match is
      dropped and the scan resumes after it. */
  function RemoveTags(s: string): (r: string)
    ensures |r| <= |s|
    decreases |s|
  {
    if s == [] then []
    else if OpensTag(s) then RemoveTags(s[TagEnd(s)..])
    else [s[0]] + RemoveTags(s[1..])
  }

  /** `s.replace(c, "")`. */
  function RemoveChar(s: string, c: char): (r: string)
    ensures c !in r
    ensures forall x :: x in r ==> x in s
    ensures c !in s ==> r == s
  {
    if s == [] then []
    else if s[0] == c then RemoveChar(s[1..], c)
    else
      assert s == [s[0]] + s[1..];
      [s[0]] + RemoveChar(s[1..], c)
  }

  /** Dropping tags introduces no characters. */
  lemma {:induction false} RemoveTagsKeepsChars(s: string)
    ensures forall x :: x in RemoveTags(s) ==> x in s
    decreases |s|
  {
    if s == [] {
    } else if OpensTag(s) {
      var rest := s[TagEnd(s)..];
      RemoveTagsKeepsChars(rest);
      forall x | x in rest ensures x in s {
        var i :| 0 <= i < |rest| && rest[i] == x;
        assert s[TagEnd(s) + i] == x;
      }
    } else {
      RemoveTagsKeepsChars(s[1..]);
      forall x | x in s[1..] ensures x in s {
        var i :| 0 <= i < |s[1..]| && s[1..][i] == x;
        assert s[1 + i] == x;
      }
    }
  }

  /** `clean_model_output(text)`: the answer with its tags and stray angle
      brackets gone, trimmed, and made only of characters of the answer. */
  function CleanModelOutput(text: string): (r: string)
    ensures '<' !in r && '>' !in r
    ensures forall x :: x in r ==> x in text
  {
    var t := RemoveChar(RemoveChar(RemoveTags(text), '<'), '>');
    RemoveTagsKeepsChars(text);
    StripKeepsChars(t);
    Strip(t)
  }

  /** Every character of a stripped text comes from the text. */
  lemma StripKeepsChars(s: string)
    ensures forall x :: x in Strip(s) ==> x in s
  {
    StripSpec(s);
    var k, r := LeadingSpaces(s), Strip(s);
    forall x | x in r ensures x in s {
      var i :| 0 <= i < |r| && r[i] == x;
      assert s[k + i] == x;
    }
  }

  /** Text with no `<` holds no tag. */
  lemma {:induction false} RemoveTagsPlain(s: string)
    requires '<' !in s
    ensures RemoveTags(s) == s
  {
    if s != [] {
      assert '<' !in s[1..];
      RemoveTagsPlain(s[1..]);
      assert s == [s[0]] + s[1..];
    }
  }

  /** Text with no `<` is kept in front of whatever follows it. */
  lemma {:induction false} RemoveTagsPrefix(w: string, rest: string)
    requires '<' !in w
    ensures RemoveTags(w + rest) == w + RemoveTags(rest)
  {
    if w != [] {
      var s := w + rest;
      assert s[0] == w[0] && w[0] in w && !OpensTag(s);
      assert s[1..] == w[1..] + rest;
      assert RemoveTags(s) == [s[0]] + RemoveTags(s[1..]);
      assert '<' !in w[1..];
      RemoveTagsPrefix(w[1..], rest);
      assert w == [w[0]] + w[1..];
      assert [w[0]] + (w[1..] + RemoveTags(rest)) == w + RemoveTags(rest);
    } else {
      assert w + rest == rest;
    }
  }

  /** The output of `clean_model_output` has no `<` or `>`, no whitespace
      at either end, and only characters of the input. */
  lemma CleanOutputShape(text: string)
    ensures var r := CleanModelOutput(text);
      && '<' !in r && '>' !in r && Strip(r) == r
      && forall x :: x in r ==> x in text
  {
    var t := RemoveChar(RemoveChar(RemoveTags(text), '<'), '>');
    StripIdempotent(t);
  }

  /** Text with no angle brackets and no surrounding whitespace comes out
      unchanged. */
  lemma CleanKeepsPlainText(text: string)
    requires '<' !in text && '>' !in text && Strip(text) == text
    ensures CleanModelOutput(text) == text
  {
    RemoveTagsPlain(text);
  }

  /** Cleaning twice is cleaning once. */
  lemma CleanIdempotent(text: string)
    ensures CleanModelOutput(CleanModelOutput(text)) == CleanModelOutput(text)
  {
    CleanOutputShape(text);
    CleanKeepsPlainText(CleanModelOutput(text));
  }

  /** A tag at the start is dropped whole, whatever follows it. */
  lemma TagDropped(inner: string, rest: string)
    requires inner != [] && '>' !in inner
    ensures RemoveTags("<" + inner + ">" + rest) == RemoveTags(rest)
  {
    var s := "<" + inner + ">" + rest;
    var tail := s[1..];
    assert tail == inner + ">" + rest;
    assert tail[|inner|] == '>';
    assert inner[0] in inner && s[1] == inner[0];
    assert OpensTag(s);
    assert TagEnd(s) == |inner| + 2;
    assert s[|inner| + 2..] == rest;
  }

  /** A text wrapped in an opening and a closing tag is reduced to the
      stripped text. */
  lemma CleanUnwrapsTag(tag: string, w: string)
    requires tag != [] && '<' !in tag && '>' !in tag
    requires '<' !in w && '>' !in w
    ensures CleanModelOutput("<" + tag + ">" + w + "</" + tag + ">") == Strip(w)
  {
    var close := "</" + tag + ">";
    assert "<" + tag + ">" + w + "</" + tag + ">" == "<" + tag + ">" + (w + close);
    TagDropped(tag, w + close);
    RemoveTagsPrefix(w, close);
    assert close == "<" + ("/" + tag) + ">" + "";
    assert '>' !in "/" + tag;
    TagDropped("/" + tag, "");
    assert w + RemoveTags(close) == w;
  }

  // ---------------------------------------------------------------------
  // render_progress_bar
  // ---------------------------------------------------------------------

  /** The bar's current position: both the idea and the prompt-selection
      steps are on the first circle; an unknown step also shows there. */
  function ProgressIndex(step: string): (i: nat)
    ensures i <= 2
    ensures i == 1 <==> step == "preferences"
    ensures i == 2 <==> step == "generation"
  {
    if step in ["input", "prompt_selection"] then 0
    else if step == "preferences" then 1
    else if step == "generation" then 2
    else 0
  }

  datatype StepStatus = Completed | Active | Pending

  /** The number of circles on the bar. */
  const PROGRESS_STEPS := 3

  /** The statuses of the three circles and the width of the filled line in
      percent: circles before the current one are completed, the current one
      is active, later ones are pending. */
  method RenderProgress(step: string) returns (statuses: seq<StepStatus>, fill: int)
    ensures |statuses| == PROGRESS_STEPS
    ensures forall k :: 0 <= k < |statuses| ==>
      && (statuses[k] == Completed <==> k < ProgressIndex(step))
      && (statuses[k] == Active <==> k == ProgressIndex(step))
    ensures fill == 50 * ProgressIndex(step) && 0 <= fill <= 100
  {
    var current := ProgressIndex(step);
    fill := current * 50;
    statuses := [];
    var idx := 0;
    while idx < PROGRESS_STEPS
      invariant 0 <= idx <= PROGRESS_STEPS && |statuses| == idx
      invariant forall k :: 0 <= k < idx ==>
        && (statuses[k] == Completed <==> k < current)
        && (statuses[k] == Active <==> k == current)
    {
      var status;
      if idx < current {
        status := Completed;
      } else if idx == current {
        status := Active;
      } else {
        status := Pending;
      }
      statuses := statuses + [status];
      idx := idx + 1;
    }
  }

  // ---------------------------------------------------------------------
  // save_to_database
  // ---------------------------------------------------------------------

  const TITLE_LIMIT := 60

  /** `title[:60]`: the longest prefix of at most 60 characters. */
  function TruncateTitle(title: string): (t: string)
    ensures |t| <= TITLE_LIMIT && |t| <= |title| && t == title[..|t|]
    ensures |title| <= TITLE_LIMIT ==> t == title
    ensures |title| > TITLE_LIMIT ==> |t| == TITLE_LIMIT
  {
    if |title| <= TITLE_LIMIT then title else title[..TITLE_LIMIT]
  }

  /** The row `save_to_database` adds: the title cut to 60 characters, every
      other field as given; `id` and `createdAt` come from the database. */
  function HistoryRow(id: int, email: string, title: string, contentType: string, tone: string,
                      audience: string, purpose: string, wordLimit: int, content: string, now: int)
    : (h: ContentHistory)
    ensures h.title == TruncateTitle(title)
    ensures h.userEmail == email && h.generatedContent == content && h.createdAt == now
  {
    ContentHistory(id, email, TruncateTitle(title), contentType, tone, audience, purpose,
                   wordLimit, content, now)
  }

  /** Cutting an already cut title changes nothing. */
  lemma TruncateIdempotent(title: string)
    ensures TruncateTitle(TruncateTitle(title)) == TruncateTitle(title)
  {
  }

  // ---------------------------------------------------------------------
  // History search and breakdown
  // ---------------------------------------------------------------------

  /** `search.lower() in h.title.lower() or search.lower() in
      h.generated_content.lower()`. */
  predicate Matches(query: string, h: ContentHistory)
  {
    Contains(Lower(query), Lower(h.title)) || Contains(Lower(query), Lower(h.generatedContent))
  }

  /** `xs` is `ys` with some items left out, the rest in their order. */
  predicate IsSubsequence<T(==)>(xs: seq<T>, ys: seq<T>)
    decreases |ys|
  {
    if xs == [] then true
    else if ys == [] then false
    else if xs[0] == ys[0] then IsSubsequence(xs[1..], ys[1..])
    else IsSubsequence(xs, ys[1..])
  }

  /** The list comprehension of the history page. */
  function FilterMatching(items: seq<ContentHistory>, query: string): (r: seq<ContentHistory>)
    ensures IsSubsequence(r, items)
    ensures forall k :: 0 <= k < |r| ==> Matches(query, r[k])
    ensures forall h :: h in items && Matches(query, h) ==> h in r
  {
    if items == [] then []
    else
      var rest := FilterMatching(items[1..], query);
      assert forall h :: h in items ==> h == items[0] || h in items[1..];
      if Matches(query, items[0]) then [items[0]] + rest else rest
  }

  /** The search box: an empty query keeps every item; otherwise the items
      matching it, in their order, and all of them. */
  function SearchHistory(items: seq<ContentHistory>, query: string): (r: seq<ContentHistory>)
    ensures query == "" ==> r == items
    ensures query != "" ==>
      && IsSubsequence(r, items)
      && (forall k :: 0 <= k < |r| ==> Matches(query, r[k]))
      && (forall h :: h in items && Matches(query, h) ==> h in r)
  {
    if query == "" then items else FilterMatching(items, query)
  }

  /** How many items have content type `t`. */
  function CountOf(items: seq<ContentHistory>, t: string): nat
  {
    if items == [] then 0
    else CountOf(items[..|items| - 1], t) + (if items[|items| - 1].contentType == t then 1 else 0)
  }

  function SumCounts(counts: seq<(string, nat)>): nat
  {
    if counts == [] then 0 else counts[0].1 + SumCounts(counts[1..])
  }

  /** The content types listed, in their order. */
  function Types(counts: seq<(string, nat)>): set<string>
  {
    set k | 0 <= k < |counts| :: counts[k].0
  }

  /** `content_types.get(t)` on the insertion-ordered dictionary: the
      position of `t`, if listed. */
  function Find(counts: seq<(string, nat)>, t: string): (r: Option<nat>)
    ensures r.Some? ==> r.value < |counts| && counts[r.value].0 == t
    ensures r.None? ==> forall k :: 0 <= k < |counts| ==> counts[k].0 != t
  {
    if counts == [] then None
    else if counts[0].0 == t then Some(0)
    else match Find(counts[1..], t)
      case None => None
      case Some(k) => Some(k + 1)
  }

  lemma {:induction false} SumAppend(counts: seq<(string, nat)>, p: (string, nat))
    ensures SumCounts(counts + [p]) == SumCounts(counts) + p.1
  {
    if counts != [] {
      assert (counts + [p])[1..] == counts[1..] + [p];
      SumAppend(counts[1..], p);
    }
  }

  lemma {:induction false} SumIncrement(counts: seq<(string, nat)>, k: nat)
    requires k < |counts|
    ensures SumCounts(counts[k := (counts[k].0, counts[k].1 + 1)]) == SumCounts(counts) + 1
  {
    if k > 0 {
      assert counts[k := (counts[k].0, counts[k].1 + 1)][1..] == counts[1..][k - 1 := (counts[k].0, counts[k].1 + 1)];
      SumIncrement(counts[1..], k - 1);
    }
  }

  lemma TypesAppend(counts: seq<(string, nat)>, p: (string, nat))
    ensures Types(counts + [p]) == Types(counts) + {p.0}
  {
    var longer := counts + [p];
    forall x | x in Types(counts) ensures x in Types(longer) {
      var j :| 0 <= j < |counts| && counts[j].0 == x;
      assert longer[j].0 == x;
    }
    assert longer[|counts|].0 == p.0;
  }

  lemma TypesUpdate(counts: seq<(string, nat)>, k: nat, n: nat)
    requires k < |counts|
    ensures Types(counts[k := (counts[k].0, n)]) == Types(counts)
  {
    var updated := counts[k := (counts[k].0, n)];
    forall x | x in Types(counts) ensures x in Types(updated) {
      var j :| 0 <= j < |counts| && counts[j].0 == x;
      assert updated[j].0 == x;
    }
    forall x | x in Types(updated) ensures x in Types(counts) {
      var j :| 0 <= j < |updated| && updated[j].0 == x;
      assert counts[j].0 == x;
    }
  }

  /** `content_types[t] = content_types.get(t, 0) + 1`. */
  function Bump(counts: seq<(string, nat)>, t: string): seq<(string, nat)>
  {
    match Find(counts, t)
    case Some(k) => counts[k := (t, counts[k].1 + 1)]
    case None => counts + [(t, 1)]
  }

  /** `counts` is the breakdown of `items`: each type listed once, with its
      number of items; every type of an item listed; the counts summing to
      the number of items. */
  ghost predicate Tally(items: seq<ContentHistory>, counts: seq<(string, nat)>)
  {
    && (forall j, k :: 0 <= j < k < |counts| ==> counts[j].0 != counts[k].0)
    && (forall k :: 0 <= k < |counts| ==> counts[k].1 == CountOf(items, counts[k].0) > 0)
    && (forall x :: x !in Types(counts) ==> CountOf(items, x) == 0)
    && SumCounts(counts) == |items|
  }

  /** One more item adds one to the count of its own type only. */
  lemma CountOfSnoc(items: seq<ContentHistory>, h: ContentHistory, x: string)
    ensures CountOf(items + [h], x) == CountOf(items, x) + (if h.contentType == x then 1 else 0)
  {
    assert (items + [h])[..|items|] == items;
  }

  /** Counting an item whose type is already listed at `k`. */
  lemma TallyBumpFound(items: seq<ContentHistory>, h: ContentHistory, counts: seq<(string, nat)>, k: nat)
    requires Tally(items, counts) && k < |counts| && counts[k].0 == h.contentType
    ensures Tally(items + [h], counts[k := (h.contentType, counts[k].1 + 1)])
  {
    var longer, t := items + [h], h.contentType;
    var updated := counts[k := (t, counts[k].1 + 1)];
    forall i | 0 <= i < |updated| ensures updated[i].1 == CountOf(longer, updated[i].0) > 0 {
      CountOfSnoc(items, h, updated[i].0);
    }
    TypesUpdate(counts, k, counts[k].1 + 1);
    assert t in Types(counts);
    forall x | x !in Types(updated) ensures CountOf(longer, x) == 0 {
      CountOfSnoc(items, h, x);
    }
    SumIncrement(counts, k);
  }

  /** Counting an item of a type not listed yet. */
  lemma TallyBumpNew(items: seq<ContentHistory>, h: ContentHistory, counts: seq<(string, nat)>)
    requires Tally(items, counts)
    requires forall k :: 0 <= k < |counts| ==> counts[k].0 != h.contentType
    ensures Tally(items + [h], counts + [(h.contentType, 1)])
  {
    var longer, t := items + [h], h.contentType;
    var extended := counts + [(t, 1)];
    forall i | 0 <= i < |extended| ensures extended[i].1 == CountOf(longer, extended[i].0) > 0 {
      CountOfSnoc(items, h, extended[i].0);
      if i < |counts| {
        assert extended[i] == counts[i];
      } else {
        assert t !in Types(counts);
      }
    }
    TypesAppend(counts, (t, 1));
    forall x | x !in Types(extended) ensures CountOf(longer, x) == 0 {
      CountOfSnoc(items, h, x);
    }
    SumAppend(counts, (t, 1));
  }

  /** Counting one more item keeps the breakdown right. */
  lemma TallyStep(items: seq<ContentHistory>, h: ContentHistory, counts: seq<(string, nat)>)
    requires Tally(items, counts)
    ensures Tally(items + [h], Bump(counts, h.contentType))
  {
    match Find(counts, h.contentType)
    case Some(k) => TallyBumpFound(items, h, counts, k);
    case None => TallyBumpNew(items, h, counts);
  }

  /** A listed type has an item of that type. */
  lemma TallyListsOnlyPresent(items: seq<ContentHistory>, counts: seq<(string, nat)>, h: ContentHistory)
    requires Tally(items, counts) && h in items
    ensures h.contentType in Types(counts)
  {
    if h.contentType !in Types(counts) {
      var j :| 0 <= j < |items| && items[j] == h;
      CountPositive(items, j);
    }
  }

  lemma {:induction false} CountPositive(items: seq<ContentHistory>, j: nat)
    requires j < |items|
    ensures CountOf(items, items[j].contentType) > 0
  {
    var n := |items| - 1;
    if j < n {
      assert items[..n][j] == items[j];
      CountPositive(items[..n], j);
    }
  }

  /** The content breakdown of the profile page: one entry per content type,
      in the order the types first occur, with the number of items of that
      type; the counts add up to the number of items. */
  method CountByType(items: seq<ContentHistory>) returns (counts: seq<(string, nat)>)
    ensures forall j, k :: 0 <= j < k < |counts| ==> counts[j].0 != counts[k].0
    ensures forall k :: 0 <= k < |counts| ==> counts[k].1 == CountOf(items, counts[k].0) > 0
    ensures forall h :: h in items ==> h.contentType in Types(counts)
    ensures SumCounts(counts) == |items|
  {
    counts := [];
    var i := 0;
    while i < |items|
      invariant 0 <= i <= |items|
      invariant Tally(items[..i], counts)
      decreases |items| - i
    {
      TallyStep(items[..i], items[i], counts);
      assert items[..i] + [items[i]] == items[..i + 1];
      counts := Bump(counts, items[i].contentType);
      i := i + 1;
    }
    assert items[..i] == items;
    forall h | h in items ensures h.contentType in Types(counts) {
      TallyListsOnlyPresent(items, counts, h);
    }
  }
}
