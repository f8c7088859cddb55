/** What the content studio page does to the session dictionary: filling in
    its defaults, the four-step wizard (`input`, `prompt_selection`,
    `preferences`, `generation`), the resets, and the list of saved
    templates. */
module StudioSession {
  import opened Common
  import opened Models
  import opened Session
  import opened ContentStudio

  // ---------------------------------------------------------------------
  // init_session_state
  // ---------------------------------------------------------------------

  const DEFAULT_WORD_LIMIT := 150

  /** The three templates every session starts with. */
  function DefaultTemplates(): (ts: seq<Template>)
    ensures |ts| == 3
  {
    [ Template("Professional Achievement", Str("LinkedIn Post"), Str("Professional"),
               Str("Recruiters"), Str("Announce Achievement"), Int(150)),
      Template("Tech Blog Post", Str("Blog Post"), Str("Conversational"),
               Str("Technical Professionals"), Str("Share Experience"), Int(250)),
      Template("Inspirational Story", Str("Tweet Thread"), Str("Inspirational"),
               Str("General Audience"), Str("Inspire Others"), Int(120)) ]
  }

  /** `st.session_state.get(key, fallback)`. */
  function Get(e: Entries, key: string, fallback: Value): (v: Value)
    ensures key in e ==> v == e[key]
    ensures key !in e ==> v == fallback
  {
    if key in e then e[key] else fallback
  }

  /** The `defaults` dictionary. The shown name and address default to the
      `name` and `email` keys when the session has them. A map has no order:
      the keys the studio reads back come last here, which only shortens
      the proofs. */
  function Defaults(e: Entries): Entries
  {
    map[
      "selected_prompt" := Null,
      "final_content" := Null,
      "user_idea" := Str(""),
      "content_type" := Null,
      "tone" := Null,
      "audience" := Null,
      "purpose" := Null,
      "word_limit" := Int(DEFAULT_WORD_LIMIT),
      "user_name" := Get(e, "name", Str("User")),
      "user_profile_pic" := Str("\U{1F464}"),
      "show_template_save_modal" := Bool(false),
      "new_template_name" := Str(""),
      "theme" := Str("dark"),
      "show_evaluation" := Bool(false),
      "evaluation_scores" := Null,
      "user_email" := Get(e, "email", Str("user@example.com")),
      "user_templates" := Templates([]),
      "default_templates" := Templates(DefaultTemplates()),
      "generated_prompts" := Prompts([]),
      "step" := Str("input"),
      "page" := Str("new_content")
    ]
  }

  /** The default values the studio needs, in the shape it reads them. */
  predicate Shaped(e: Entries)
  {
    && "page" in e && e["page"].Str?
    && "step" in e && e["step"].Str?
    && "generated_prompts" in e && e["generated_prompts"].Prompts?
    && "user_templates" in e && e["user_templates"].Templates?
    && "default_templates" in e && e["default_templates"].Templates?
    && "content_type" in e && "tone" in e && "audience" in e && "purpose" in e && "word_limit" in e
    && "selected_prompt" in e && "final_content" in e
    && (e["step"].str == "prompt_selection" ==> |e["generated_prompts"].prompts| == 2)
  }

  lemma DefaultsWizard(e: Entries)
    ensures var d := Defaults(e);
      && "page" in d && d["page"] == Str("new_content")
      && "step" in d && d["step"] == Str("input")
      && "generated_prompts" in d && d["generated_prompts"] == Prompts([])
  {
  }

  lemma DefaultsChoices(e: Entries)
    ensures var d := Defaults(e);
      && "content_type" in d && "tone" in d && "audience" in d && "purpose" in d
      && "word_limit" in d && "selected_prompt" in d && "final_content" in d
  {
  }

  lemma DefaultsLists(e: Entries)
    ensures var d := Defaults(e);
      && "user_templates" in d && d["user_templates"].Templates?
      && "default_templates" in d && d["default_templates"].Templates?
      && "user_email" in d && d["user_email"] == Get(e, "email", Str("user@example.com"))
  {
  }

  /** The pairs of `d` whose keys are in `ks`. */
  function Restrict(d: Entries, ks: set<string>): Entries
  {
    map k | k in ks && k in d :: d[k]
  }

  lemma MergeNothing(d: Entries, start: Entries)
    ensures Restrict(d, {}) + start == start
  {
    var r := Restrict(d, {}) + start;
    assert r.Keys == start.Keys;
    forall k | k in r ensures r[k] == start[k] { }
  }

  lemma MergeAll(d: Entries, start: Entries)
    ensures Restrict(d, d.Keys) + start == d + start
  {
    var r := Restrict(d, d.Keys) + start;
    assert r.Keys == (d + start).Keys;
    forall k | k in r ensures r[k] == (d + start)[k] { }
  }

  /** Visiting one more key of the defaults: inserting it when absent is the
      same as merging it in under the session. */
  lemma MergeOneMore(d: Entries, start: Entries, done: set<string>, key: string)
    requires key in d && key !in done
    ensures var before := Restrict(d, done) + start;
      Restrict(d, done + {key}) + start == if key in before then before else before[key := d[key]]
  {
    var before := Restrict(d, done) + start;
    var after := Restrict(d, done + {key}) + start;
    var expected := if key in before then before else before[key := d[key]];
    assert after.Keys == expected.Keys;
    forall k | k in after ensures after[k] == expected[k] { }
  }

  /** The loop of `init_session_state()`: each key of `d` that the session
      lacks is inserted with its value. Since the keys of a dictionary are
      distinct, the order of the visits does not change the outcome: the
      result is `d` overridden by what the session already held. */
  method InsertMissing(s: SessionState, d: Entries)
    modifies s
    ensures s.entries == d + old(s.entries)
  {
    ghost var start := s.entries;
    ghost var done: set<string> := {};
    var keys := d.Keys;
    MergeNothing(d, start);
    while keys != {}
      invariant keys <= d.Keys && done == d.Keys - keys
      invariant s.entries == Restrict(d, done) + start
      decreases |keys|
    {
      var key :| key in keys;
      MergeOneMore(d, start, done, key);
      if key !in s.entries {
        s.entries := s.entries[key := d[key]];
      }
      keys := keys - {key};
      done := done + {key};
    }
    assert done == d.Keys;
    MergeAll(d, start);
  }

  /** `init_session_state()`: every key of `defaults` that the session lacks
      is inserted with its default; keys already there keep their values. */
  method InitSessionState(s: SessionState)
    modifies s
    ensures s.entries == Defaults(old(s.entries)) + old(s.entries)
    ensures forall k :: k in old(s.entries) ==> k in s.entries && s.entries[k] == old(s.entries)[k]
  {
    InsertMissing(s, Defaults(s.entries));
  }

  /** A session that holds none of the studio's keys (the one the Verify
      page leaves behind, say) is fully shaped after initialisation, starts
      on the idea step, and shows the address the login stored. */
  lemma InitShapesNewSession(e: Entries)
    requires Defaults(e).Keys !! e.Keys
    ensures var r := Defaults(e) + e;
      && Shaped(r)
      && r["step"] == Str("input") && r["page"] == Str("new_content")
      && r["user_email"] == Get(e, "email", Str("user@example.com"))
  {
    var d := Defaults(e);
    DefaultsWizard(e);
    DefaultsChoices(e);
    DefaultsLists(e);
    var r := d + e;
    forall k | k in d ensures k in r && r[k] == d[k] {
      assert k !in e;
    }
  }

  // ---------------------------------------------------------------------
  // Wizard
  // ---------------------------------------------------------------------

  function Step(e: Entries): string
    requires Shaped(e)
  {
    e["step"].str
  }

  /** A sidebar button: the page changes, and "New Content" also goes back
      to the idea step. */
  method Navigate(s: SessionState, pageKey: string)
    modifies s
    requires Shaped(s.entries)
    ensures Shaped(s.entries)
    ensures pageKey == "new_content" ==>
      s.entries == old(s.entries)["page" := Str(pageKey)]["step" := Str("input")]
    ensures pageKey != "new_content" ==> s.entries == old(s.entries)["page" := Str(pageKey)]
  {
    var e := s.entries["page" := Str(pageKey)];
    if pageKey == "new_content" {
      e := e["step" := Str("input")];
    }
    s.entries := e;
  }

  /** What asking the model for two prompts gives: no answer, an answer that
      does not parse as the expected JSON, or the two prompts. */
  datatype PromptReply = NoResponse | Unparsable | Parsed(first: Prompt, second: Prompt)

  /** The minimum length of a stripped idea. */
  const MIN_IDEA_LENGTH := 10

  /** "Generate Prompts" on the idea step. A stripped idea shorter than ten
      characters changes nothing; otherwise the idea is kept, and only a
      parsed answer moves on to choosing between its two prompts. */
  method SubmitIdea(s: SessionState, idea: string, reply: PromptReply)
    modifies s
    requires Shaped(s.entries) && Step(s.entries) == "input"
    ensures Shaped(s.entries)
    ensures |Strip(idea)| < MIN_IDEA_LENGTH ==> s.entries == old(s.entries)
    ensures |Strip(idea)| >= MIN_IDEA_LENGTH && reply.Parsed? ==>
      s.entries == old(s.entries)["user_idea" := Str(idea)]
        ["generated_prompts" := Prompts([reply.first, reply.second])]["step" := Str("prompt_selection")]
    ensures |Strip(idea)| >= MIN_IDEA_LENGTH && !reply.Parsed? ==>
      s.entries == old(s.entries)["user_idea" := Str(idea)]
  {
    if |Strip(idea)| < MIN_IDEA_LENGTH {
      return;
    }
    var e := s.entries["user_idea" := Str(idea)];
    if reply.Parsed? {
      e := e["generated_prompts" := Prompts([reply.first, reply.second])]["step" := Str("prompt_selection")];
    }
    s.entries := e;
  }

  /** "Select This Prompt" under one of the two prompts. */
  method SelectPrompt(s: SessionState, idx: nat)
    modifies s
    requires Shaped(s.entries) && Step(s.entries) == "prompt_selection" && idx < 2
    ensures Shaped(s.entries) && Step(s.entries) == "preferences"
    ensures s.entries == old(s.entries)
      ["selected_prompt" := Str(old(s.entries)["generated_prompts"].prompts[idx].text)]
      ["step" := Str("preferences")]
  {
    var chosen := s.entries["generated_prompts"].prompts[idx];
    s.entries := s.entries["selected_prompt" := Str(chosen.text)]["step" := Str("preferences")];
  }

  /** The preferences step with the four selectors and the slider as shown.
      Only when all four selectors are set are the choices stored and the
      "Generate Content" button offered; pressing it moves on. */
  method SetPreferences(s: SessionState, contentType: string, tone: string, audience: string,
                        purpose: string, wordLimit: int, generate: bool)
    modifies s
    requires Shaped(s.entries) && Step(s.entries) == "preferences"
    ensures Shaped(s.entries)
    ensures var complete := contentType != "" && tone != "" && audience != "" && purpose != "";
      var stored := old(s.entries)["content_type" := Str(contentType)]["tone" := Str(tone)]
        ["audience" := Str(audience)]["purpose" := Str(purpose)]["word_limit" := Int(wordLimit)];
      && (!complete ==> s.entries == old(s.entries))
      && (complete && !generate ==> s.entries == stored)
      && (complete && generate ==> s.entries == stored["step" := Str("generation")])
  {
    if contentType != "" && tone != "" && audience != "" && purpose != "" {
      var e := s.entries["content_type" := Str(contentType)]["tone" := Str(tone)];
      e := e["audience" := Str(audience)]["purpose" := Str(purpose)]["word_limit" := Int(wordLimit)];
      if generate {
        e := e["step" := Str("generation")];
      }
      s.entries := e;
    }
  }

  /** Python truthiness of a session value that holds text. */
  predicate Truthy(v: Value)
  {
    match v
    case Null => false
    case Str(t) => t != ""
    case Int(n) => n != 0
    case Bool(b) => b
    case Prompts(ps) => ps != []
    case Templates(ts) => ts != []
  }

  /** The text of a session value (empty for anything but a string). */
  function TextOf(v: Value): string
  {
    if v.Str? then v.str else ""
  }

  function NumberOf(v: Value): int
  {
    if v.Int? then v.num else 0
  }

  /** The generation step when no content is shown yet: a non-empty answer
      of the model is cleaned and shown, and the row `save_to_database`
      adds is returned (its `id` and time come from the database). The
      title is `selected_prompt[:60]`: when the prompt is not a string (it
      is still `None` after "Use Template"), the slice or the insert raises
      inside the `try`, "Save error" is shown and no row is added, while the
      content stays shown. */
  method GenerateContent(s: SessionState, reply: string, id: int, now: int)
    returns (saved: Option<ContentHistory>)
    modifies s
    requires Shaped(s.entries) && Step(s.entries) == "generation"
    ensures Shaped(s.entries)
    ensures Truthy(old(s.entries)["final_content"]) || reply == "" ==>
      s.entries == old(s.entries) && saved == None
    ensures !Truthy(old(s.entries)["final_content"]) && reply != "" ==>
      s.entries == old(s.entries)["final_content" := Str(CleanModelOutput(reply))]
    ensures saved.Some? <==>
      !Truthy(old(s.entries)["final_content"]) && reply != "" && old(s.entries)["selected_prompt"].Str?
    ensures saved.Some? ==>
      var e := old(s.entries);
      saved.value == HistoryRow(id, TextOf(Get(e, "email", Str(""))), e["selected_prompt"].str,
                                TextOf(e["content_type"]), TextOf(e["tone"]), TextOf(e["audience"]),
                                TextOf(e["purpose"]), NumberOf(e["word_limit"]), CleanModelOutput(reply), now)
  {
    saved := None;
    if Truthy(s.entries["final_content"]) || reply == "" {
      return;
    }
    var content := CleanModelOutput(reply);
    s.entries := s.entries["final_content" := Str(content)];
    var e := s.entries;
    if e["selected_prompt"].Str? {
      saved := Some(HistoryRow(id, TextOf(Get(e, "email", Str(""))), e["selected_prompt"].str,
                               TextOf(e["content_type"]), TextOf(e["tone"]), TextOf(e["audience"]),
                               TextOf(e["purpose"]), NumberOf(e["word_limit"]), content, now));
    }
  }

  /** "Regenerate": only the content and its evaluation are cleared, so the
      generation step asks the model again with the same preferences. */
  method Regenerate(s: SessionState)
    modifies s
    requires Shaped(s.entries)
    ensures Shaped(s.entries)
    ensures s.entries == old(s.entries)["final_content" := Null]
      ["show_evaluation" := Bool(false)]["evaluation_scores" := Null]
  {
    s.entries := s.entries["final_content" := Null]["show_evaluation" := Bool(false)]["evaluation_scores" := Null];
  }

  /** "New Content": back to the idea step with the content, the idea, the
      four preferences and the evaluation cleared; the word limit and the
      prompts are kept. */
  method NewContent(s: SessionState)
    modifies s
    requires Shaped(s.entries)
    ensures Shaped(s.entries) && Step(s.entries) == "input"
    ensures s.entries == old(s.entries)["step" := Str("input")]["final_content" := Null]
      ["user_idea" := Str("")]["content_type" := Null]["tone" := Null]["audience" := Null]
      ["purpose" := Null]["show_evaluation" := Bool(false)]["evaluation_scores" := Null]
  {
    var e := s.entries["step" := Str("input")]["final_content" := Null];
    e := e["user_idea" := Str("")]["content_type" := Null]["tone" := Null];
    e := e["audience" := Null]["purpose" := Null];
    s.entries := e["show_evaluation" := Bool(false)]["evaluation_scores" := Null];
  }

  /** "Use" on a default or a saved template: its preferences are loaded and
      the wizard opens on the preferences step. */
  method UseTemplate(s: SessionState, t: Template)
    modifies s
    requires Shaped(s.entries)
    ensures Shaped(s.entries) && Step(s.entries) == "preferences"
    ensures s.entries == old(s.entries)["content_type" := t.contentType]["tone" := t.tone]
      ["audience" := t.audience]["purpose" := t.purpose]["word_limit" := t.wordLimit]
      ["page" := Str("new_content")]["step" := Str("preferences")]
  {
    var e := s.entries["content_type" := t.contentType]["tone" := t.tone];
    e := e["audience" := t.audience]["purpose" := t.purpose]["word_limit" := t.wordLimit];
    s.entries := e["page" := Str("new_content")]["step" := Str("preferences")];
  }

  /** `load_history_item(item)`: a saved row is shown again on the
      generation step, with its title as the selected prompt. */
  method LoadHistoryItem(s: SessionState, item: ContentHistory)
    modifies s
    requires Shaped(s.entries)
    ensures Shaped(s.entries) && Step(s.entries) == "generation"
    ensures s.entries == old(s.entries)["selected_prompt" := Str(item.title)]
      ["content_type" := Str(item.contentType)]["tone" := Str(item.tone)]
      ["audience" := Str(item.audience)]["purpose" := Str(item.purpose)]
      ["word_limit" := Int(item.wordLimit)]["final_content" := Str(item.generatedContent)]
      ["step" := Str("generation")]["page" := Str("new_content")]
  {
    var e := s.entries["selected_prompt" := Str(item.title)];
    e := e["content_type" := Str(item.contentType)]["tone" := Str(item.tone)];
    e := e["audience" := Str(item.audience)]["purpose" := Str(item.purpose)];
    e := e["word_limit" := Int(item.wordLimit)]["final_content" := Str(item.generatedContent)];
    s.entries := e["step" := Str("generation")]["page" := Str("new_content")];
  }

  // ---------------------------------------------------------------------
  // Templates
  // ---------------------------------------------------------------------

  function UserTemplates(e: Entries): seq<Template>
    requires Shaped(e)
  {
    e["user_templates"].templates
  }

  /** The "Total Templates" figure of the profile page. */
  function TotalTemplates(e: Entries): nat
    requires Shaped(e)
  {
    |e["default_templates"].templates| + |UserTemplates(e)|
  }

  /** "Save Template": a name that is not blank once stripped appends one
      template holding the current preferences and closes the dialog; a
      blank name changes nothing. */
  method SaveTemplate(s: SessionState, name: string) returns (saved: bool)
    modifies s
    requires Shaped(s.entries)
    ensures Shaped(s.entries)
    ensures saved <==> Strip(name) != ""
    ensures !saved ==> s.entries == old(s.entries)
    ensures saved ==>
      var e := old(s.entries);
      s.entries == e["user_templates" := Templates(UserTemplates(e) + [Template(name,
        e["content_type"], e["tone"], e["audience"], e["purpose"], e["word_limit"])])]
        ["show_template_save_modal" := Bool(false)]
    ensures TotalTemplates(s.entries) == TotalTemplates(old(s.entries)) + (if saved then 1 else 0)
  {
    saved := Strip(name) != "";
    if saved {
      var e := s.entries;
      var t := Template(name, e["content_type"], e["tone"], e["audience"], e["purpose"], e["word_limit"]);
      s.entries := e["user_templates" := Templates(UserTemplates(e) + [t])]["show_template_save_modal" := Bool(false)];
    }
  }

  /** "Delete" on a saved template: `user_templates.pop(idx)`. */
  method DeleteTemplate(s: SessionState, idx: nat)
    modifies s
    requires Shaped(s.entries) && idx < |UserTemplates(s.entries)|
    ensures Shaped(s.entries)
    ensures var ts := UserTemplates(old(s.entries));
      s.entries == old(s.entries)["user_templates" := Templates(ts[..idx] + ts[idx + 1..])]
    ensures TotalTemplates(s.entries) == TotalTemplates(old(s.entries)) - 1
  {
    var ts := UserTemplates(s.entries);
    s.entries := s.entries["user_templates" := Templates(ts[..idx] + ts[idx + 1..])];
  }
}
