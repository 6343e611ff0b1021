/** The settings store: the list of system prompts with its active id, the four quick-tweak
    slots of the HUD, the model list fetched from the server and the selected model.

    Prompt ids stand for UUIDs: a store hands out fresh ids from a counter kept above every
    id it holds. UserDefaults is a `SavedSettings` value read once; writes are left out. */
module Settings {

  import opened Wrappers
  import opened Strings
  import opened Osaurus

  // =======================================================================================
  // Prompts

  type PromptId = nat

  datatype SystemPrompt = SystemPrompt(id: PromptId, name: string, content: string, isDefault: bool)

  const DefaultPromptName: string := "Default Tweaker"

  /** The position of the first prompt with this id. */
  function FirstIndexOf(prompts: seq<SystemPrompt>, id: PromptId): (r: Option<nat>)
    ensures r.Some? ==> r.value < |prompts| && prompts[r.value].id == id
    ensures r.Some? ==> forall j :: 0 <= j < r.value ==> prompts[j].id != id
    ensures r.None? <==> forall j :: 0 <= j < |prompts| ==> prompts[j].id != id
    decreases |prompts|
  {
    if prompts == [] then None
    else if prompts[0].id == id then Some(0)
    else match FirstIndexOf(prompts[1..], id)
      case None => None
      case Some(i) => Some(i + 1)
  }

  /** `prompts.first { $0.id == id }`; no prompt matches a missing id. */
  function FirstWithId(prompts: seq<SystemPrompt>, id: Option<PromptId>): (r: Option<SystemPrompt>)
    ensures r.Some? ==> r.value in prompts && Some(r.value.id) == id
    ensures r.None? <==> id.None? || forall j :: 0 <= j < |prompts| ==> prompts[j].id != id.value
    ensures r.Some? ==> exists i :: (0 <= i < |prompts| && prompts[i] == r.value &&
      forall j :: 0 <= j < i ==> prompts[j].id != id.value)
  {
    if id.None? then None
    else match FirstIndexOf(prompts, id.value)
      case None => None
      case Some(i) => Some(prompts[i])
  }

  /** `prompts.first { $0.isDefault }`. */
  function FirstDefault(prompts: seq<SystemPrompt>): (r: Option<SystemPrompt>)
    ensures r.Some? ==> r.value in prompts && r.value.isDefault
    ensures r.None? <==> forall j :: 0 <= j < |prompts| ==> !prompts[j].isDefault
    ensures r.Some? ==> exists i :: (0 <= i < |prompts| && prompts[i] == r.value &&
      forall j :: 0 <= j < i ==> !prompts[j].isDefault)
    decreases |prompts|
  {
    if prompts == [] then None
    else if prompts[0].isDefault then Some(prompts[0])
    else
      var r := FirstDefault(prompts[1..]);
      assert r.Some? ==> exists i :: (0 <= i < |prompts| && prompts[i] == r.value &&
        forall j :: 0 <= j < i ==> !prompts[j].isDefault) by {
        if r.Some? {
          var i :| 0 <= i < |prompts[1..]| && prompts[1..][i] == r.value &&
            forall j :: 0 <= j < i ==> !prompts[1..][j].isDefault;
          assert prompts[i + 1] == r.value;
          forall j | 0 <= j < i + 1 ensures !prompts[j].isDefault {
            if j > 0 {
              assert prompts[j] == prompts[1..][j - 1];
            }
          }
        }
      }
      r
  }

  /** `prompts.removeAll { $0.id == id }`. */
  function WithoutId(prompts: seq<SystemPrompt>, id: PromptId): (r: seq<SystemPrompt>)
    decreases |prompts|
  {
    if prompts == [] then []
    else if prompts[0].id == id then WithoutId(prompts[1..], id)
    else [prompts[0]] + WithoutId(prompts[1..], id)
  }

  /** Removal keeps exactly the prompts with another id, in their order. */
  lemma {:induction false} WithoutIdKeepsOthers(prompts: seq<SystemPrompt>, id: PromptId)
    ensures forall p :: p in WithoutId(prompts, id) <==> p in prompts && p.id != id
    ensures |WithoutId(prompts, id)| <= |prompts|
    ensures (forall j :: 0 <= j < |prompts| ==> prompts[j].id != id) ==> WithoutId(prompts, id) == prompts
    decreases |prompts|
  {
    if prompts != [] {
      WithoutIdKeepsOthers(prompts[1..], id);
      assert forall p :: p in prompts <==> p == prompts[0] || p in prompts[1..];
    }
  }

  /** The active id after deleting the prompt `deleted`: the first default prompt, else the
      first remaining prompt, else unchanged; an active id that was not deleted stays. */
  function ActiveAfterDelete(active: Option<PromptId>, deleted: PromptId, remaining: seq<SystemPrompt>)
    : (r: Option<PromptId>)
    ensures active != Some(deleted) ==> r == active
    ensures active == Some(deleted) && FirstDefault(remaining).Some? ==> r == Some(FirstDefault(remaining).value.id)
    ensures active == Some(deleted) && FirstDefault(remaining).None? && remaining != [] ==> r == Some(remaining[0].id)
    ensures active == Some(deleted) && remaining == [] ==> r == active
  {
    if active != Some(deleted) then active
    else match FirstDefault(remaining)
      case Some(p) => Some(p.id)
      case None => if remaining != [] then Some(remaining[0].id) else active
  }

  /** Whether `deletePrompt(id)` acts: some prompt has the id and the first such prompt is
      not a default prompt. */
  predicate Deletable(prompts: seq<SystemPrompt>, id: PromptId) {
    var p := FirstWithId(prompts, Some(id));
    p.Some? && !p.value.isDefault
  }

  /** No two prompts share an id, as freshly generated `UUID`s guarantee. */
  predicate DistinctIds(prompts: seq<SystemPrompt>) {
    forall i, j :: 0 <= i < |prompts| && 0 <= j < |prompts| && i != j ==> prompts[i].id != prompts[j].id
  }

  /** A tail of a list with distinct ids has distinct ids. */
  lemma DistinctTail(prompts: seq<SystemPrompt>)
    requires prompts != [] && DistinctIds(prompts)
    ensures DistinctIds(prompts[1..])
  {
    var rest := prompts[1..];
    forall i, j | 0 <= i < |rest| && 0 <= j < |rest| && i != j ensures rest[i].id != rest[j].id {
      assert rest[i] == prompts[i + 1] && rest[j] == prompts[j + 1];
    }
  }

  /** A new id in front keeps ids distinct. */
  lemma DistinctCons(x: SystemPrompt, w: seq<SystemPrompt>)
    requires DistinctIds(w) && forall p :: p in w ==> p.id != x.id
    ensures DistinctIds([x] + w)
  {
    var r := [x] + w;
    forall i, j | 0 <= i < |r| && 0 <= j < |r| && i != j ensures r[i].id != r[j].id {
      if i == 0 { assert r[j] == w[j - 1]; }
      else if j == 0 { assert r[i] == w[i - 1]; }
      else { assert r[i] == w[i - 1] && r[j] == w[j - 1]; }
    }
  }

  /** The head's id is not among the tail's. */
  lemma DistinctHead(prompts: seq<SystemPrompt>)
    requires prompts != [] && DistinctIds(prompts)
    ensures forall p :: p in prompts[1..] ==> p.id != prompts[0].id
  {
    forall p | p in prompts[1..] ensures p.id != prompts[0].id {
      var k :| 0 <= k < |prompts[1..]| && prompts[1..][k] == p;
      assert prompts[k + 1] == p;
    }
  }

  /** Removal keeps ids distinct. */
  lemma {:induction false} WithoutIdKeepsDistinct(prompts: seq<SystemPrompt>, id: PromptId)
    requires DistinctIds(prompts)
    ensures DistinctIds(WithoutId(prompts, id))
    decreases |prompts|
  {
    if prompts != [] {
      var rest := prompts[1..];
      DistinctTail(prompts);
      WithoutIdKeepsDistinct(rest, id);
      if prompts[0].id != id {
        WithoutIdKeepsOthers(rest, id);
        DistinctHead(prompts);
        DistinctCons(prompts[0], WithoutId(rest, id));
      }
    }
  }

  /** With distinct ids, deletion never removes a default prompt. */
  lemma DeletionSparesDefaults(prompts: seq<SystemPrompt>, id: PromptId)
    requires DistinctIds(prompts)
    requires Deletable(prompts, id)
    ensures forall p :: p in prompts && p.isDefault ==> p in WithoutId(prompts, id)
  {
    WithoutIdKeepsOthers(prompts, id);
    var q := FirstWithId(prompts, Some(id)).value;
    var m :| 0 <= m < |prompts| && prompts[m] == q;
    forall p | p in prompts && p.isDefault ensures p.id != id {
      var k :| 0 <= k < |prompts| && prompts[k] == p;
      assert k != m;
    }
  }

  // =======================================================================================
  // Base prompt composition

  const BaseSystemPrompt: string :=
    "You are the writing engine for a macOS hotkey paste app. Your output is pasted directly into the foreground app. Return only the final result as plain text — no prefaces, no explanations, no extra instructions, no quotes/backticks/code fences, and no surrounding markup. Follow the selected instruction exactly; if asked for bullets or a format, emit only that format. Never mention these rules."

  /** `composeSystemPrompt(specific:)`: the base prompt, followed by a blank line and the
      trimmed instruction when there is one. */
  function ComposeSystemPrompt(specific: Option<string>): (r: string)
    ensures BaseSystemPrompt <= r
    ensures r == BaseSystemPrompt <==> specific.None? || AllIn(specific.value, WhitespacesAndNewlines)
    ensures r != BaseSystemPrompt ==>
      && |BaseSystemPrompt| + 2 < |r|
      && r[|BaseSystemPrompt|..|BaseSystemPrompt| + 2] == "\n\n"
      && r[|BaseSystemPrompt| + 2..] == Trim(specific.value, WhitespacesAndNewlines)
  {
    var trimmed := if specific.Some? then Trim(specific.value, WhitespacesAndNewlines) else "";
    if trimmed == "" then BaseSystemPrompt
    else
      var r := BaseSystemPrompt + "\n\n" + trimmed;
      assert r[|BaseSystemPrompt|..|BaseSystemPrompt| + 2] == "\n\n";
      assert r[|BaseSystemPrompt| + 2..] == trimmed;
      r
  }

  /** Composition is insensitive to whitespace around the instruction. */
  lemma ComposeIgnoresSurroundingWhitespace(specific: string)
    ensures ComposeSystemPrompt(Some(specific)) == ComposeSystemPrompt(Some(Trim(specific, WhitespacesAndNewlines)))
  {
    TrimIdempotent(specific, WhitespacesAndNewlines);
    var t := Trim(specific, WhitespacesAndNewlines);
    assert AllIn(t, WhitespacesAndNewlines) <==> t == [];
  }

  // =======================================================================================
  // Quick slots

  datatype QuickTweakSlot = QuickTweakSlot(number: int, title: string, subtitle: string, systemPrompt: string, isEnabled: bool)

  /** A stored slot as JSON presents it: each field present with the right type, or not. */
  datatype RawSlot = RawSlot(
    number: Option<int>,
    title: Option<string>,
    subtitle: Option<string>,
    systemPrompt: Option<string>,
    isEnabled: Option<bool>)

  /** `QuickTweakSlot.init(from:)`: the number is required; a missing or mistyped title,
      subtitle or prompt reads as empty and a missing `isEnabled` as true. */
  function DecodeSlot(raw: RawSlot): (r: Option<QuickTweakSlot>)
    ensures r.Some? <==> raw.number.Some?
    ensures r.Some? ==>
      && r.value.number == raw.number.value
      && r.value.title == raw.title.GetOr("")
      && r.value.subtitle == raw.subtitle.GetOr("")
      && r.value.systemPrompt == raw.systemPrompt.GetOr("")
      && r.value.isEnabled == raw.isEnabled.GetOr(true)
  {
    if raw.number.None? then None
    else Some(QuickTweakSlot(
      raw.number.value,
      raw.title.GetOr(""),
      raw.subtitle.GetOr(""),
      raw.systemPrompt.GetOr(""),
      raw.isEnabled.GetOr(true)))
  }

  /** `encode(to:)`: every field written. */
  function EncodeSlot(slot: QuickTweakSlot): RawSlot {
    RawSlot(Some(slot.number), Some(slot.title), Some(slot.subtitle), Some(slot.systemPrompt), Some(slot.isEnabled))
  }

  /** Decoding what was encoded gives the slot back. */
  lemma SlotRoundTrip(slot: QuickTweakSlot)
    ensures DecodeSlot(EncodeSlot(slot)) == Some(slot)
  {
  }

  /** Decoding `[QuickTweakSlot]`: the array fails as a whole when any element lacks a
      number. */
  function DecodeSlots(raws: seq<RawSlot>): (r: Option<seq<QuickTweakSlot>>)
    ensures r.Some? <==> forall k :: 0 <= k < |raws| ==> raws[k].number.Some?
    ensures r.Some? ==> |r.value| == |raws| && forall k :: 0 <= k < |raws| ==> Some(r.value[k]) == DecodeSlot(raws[k])
    decreases |raws|
  {
    if raws == [] then Some([])
    else
      var head, rest := DecodeSlot(raws[0]), DecodeSlots(raws[1..]);
      if head.Some? && rest.Some? then Some([head.value] + rest.value)
      else
        assert rest.None? ==> exists k :: 0 <= k < |raws| && raws[k].number.None? by {
          if rest.None? {
            var k :| 0 <= k < |raws[1..]| && raws[1..][k].number.None?;
            assert raws[k + 1].number.None?;
          }
        }
        None
  }

  predicate InSlotRange(slot: QuickTweakSlot) {
    1 <= slot.number <= 4
  }

  /** `.filter { (1...4).contains($0.number) }`. */
  function InRange(slots: seq<QuickTweakSlot>): (r: seq<QuickTweakSlot>)
    ensures forall s :: s in r ==> InSlotRange(s)
    decreases |slots|
  {
    if slots == [] then []
    else if InSlotRange(slots[0]) then [slots[0]] + InRange(slots[1..])
    else InRange(slots[1..])
  }

  /** The filter keeps exactly the in-range slots, with their multiplicities. */
  lemma {:induction false} InRangeKeeps(slots: seq<QuickTweakSlot>)
    ensures forall s :: s in InRange(slots) <==> s in slots && InSlotRange(s)
    ensures forall s :: InSlotRange(s) ==> multiset(InRange(slots))[s] == multiset(slots)[s]
    decreases |slots|
  {
    if slots != [] {
      InRangeKeeps(slots[1..]);
      assert slots == [slots[0]] + slots[1..];
    }
  }

  /** Each slot's number is at most the next one's. */
  predicate SortedByNumber(slots: seq<QuickTweakSlot>) {
    forall i :: 0 <= i < |slots| - 1 ==> slots[i].number <= slots[i + 1].number
  }

  /** An adjacent-pairs ordering is an all-pairs ordering. */
  lemma {:induction false} SortedByNumberAllPairs(slots: seq<QuickTweakSlot>, i: nat, j: nat)
    requires SortedByNumber(slots) && i < j < |slots|
    ensures slots[i].number <= slots[j].number
    decreases j - i
  {
    if j > i + 1 {
      SortedByNumberAllPairs(slots, i + 1, j);
    }
  }

  function InsertByNumber(x: QuickTweakSlot, slots: seq<QuickTweakSlot>): (r: seq<QuickTweakSlot>)
    requires SortedByNumber(slots)
    ensures SortedByNumber(r)
    ensures multiset(r) == multiset(slots) + multiset{x}
    ensures |r| == |slots| + 1
    ensures r[0] == x || (slots != [] && r[0] == slots[0])
    decreases |slots|
  {
    if slots == [] || x.number <= slots[0].number then [x] + slots
    else
      var rest := InsertByNumber(x, slots[1..]);
      assert slots == [slots[0]] + slots[1..];
      [slots[0]] + rest
  }

  /** `.sorted { $0.number < $1.number }`, as an insertion sort. */
  function SortByNumber(slots: seq<QuickTweakSlot>): (r: seq<QuickTweakSlot>)
    ensures SortedByNumber(r)
    ensures multiset(r) == multiset(slots)
    ensures |r| == |slots|
    decreases |slots|
  {
    if slots == [] then []
    else
      assert slots == [slots[0]] + slots[1..];
      InsertByNumber(slots[0], SortByNumber(slots[1..]))
  }

  /** Sorting a table that is already in order leaves it as it is. */
  lemma {:induction false} SortSortedIsIdentity(slots: seq<QuickTweakSlot>)
    requires SortedByNumber(slots)
    ensures SortByNumber(slots) == slots
    decreases |slots|
  {
    if slots != [] {
      assert SortedByNumber(slots[1..]);
      SortSortedIsIdentity(slots[1..]);
      assert slots == [slots[0]] + slots[1..];
    }
  }

  /** Filtering a table whose slots are all in range leaves it as it is. */
  lemma {:induction false} InRangeOfInRange(slots: seq<QuickTweakSlot>)
    requires forall k :: 0 <= k < |slots| ==> InSlotRange(slots[k])
    ensures InRange(slots) == slots
    decreases |slots|
  {
    if slots != [] {
      InRangeOfInRange(slots[1..]);
      assert slots == [slots[0]] + slots[1..];
    }
  }

  /** The load-time sanitising: slots numbered 1 to 4, sorted by number, accepted only when
      exactly four remain. */
  function Sanitize(slots: seq<QuickTweakSlot>): (r: Option<seq<QuickTweakSlot>>)
    ensures r.Some? <==> |InRange(slots)| == 4
    ensures r.Some? ==> |r.value| == 4 && SortedByNumber(r.value)
    ensures r.Some? ==> forall s :: s in r.value ==> InSlotRange(s) && s in slots
    ensures r.Some? ==> forall s :: InSlotRange(s) ==> multiset(r.value)[s] == multiset(slots)[s]
  {
    var kept := InRange(slots);
    InRangeKeeps(slots);
    var sorted := SortByNumber(kept);
    assert forall s :: s in sorted ==> s in multiset(kept);
    if |sorted| == 4 then Some(sorted) else None
  }

  /** A table of four slots in range and in order is accepted as it is. */
  lemma SanitizeKeepsTable(slots: seq<QuickTweakSlot>)
    requires |slots| == 4 && SortedByNumber(slots)
    requires forall k :: 0 <= k < |slots| ==> InSlotRange(slots[k])
    ensures Sanitize(slots) == Some(slots)
  {
    InRangeOfInRange(slots);
    SortSortedIsIdentity(slots);
  }

  /** Sanitising does not ask for distinct numbers: four slots numbered 1, 1, 2 and 3 are
      accepted as they are, and slot 4 is then missing. */
  lemma SanitizeAcceptsRepeatedNumbers(a: QuickTweakSlot, b: QuickTweakSlot, c: QuickTweakSlot, d: QuickTweakSlot)
    requires a.number == 1 && b.number == 1 && c.number == 2 && d.number == 3
    ensures Sanitize([a, b, c, d]).Some?
    ensures forall s :: s in Sanitize([a, b, c, d]).value ==> s.number != 4
  {
    InRangeOfInRange([a, b, c, d]);
  }

  const DefaultQuickSlots: seq<QuickTweakSlot> := [
    QuickTweakSlot(1, "Rewrite for clarity", "Make it clear, concise, and natural",
      "You are an assistant that rewrites text for clarity. Keep the author’s intent. Use plain language and reduce redundancy.", true),
    QuickTweakSlot(2, "Summarize (bullets)", "3–5 bullets, key points only",
      "Summarize the text in 3–5 concise bullet points. Capture only the key ideas and facts.", true),
    QuickTweakSlot(3, "Shorten (~30%)", "Keep tone; cut fluff",
      "Shorten the text by ~30% while preserving meaning, voice, and critical details.", true),
    QuickTweakSlot(4, "Formalize", "Polite, professional tone",
      "Rewrite the text in a polite, professional tone suitable for business email. Avoid sounding stiff or robotic.", true)
  ]

  /** The default table is a valid one: slots 1, 2, 3, 4 in order, all enabled. */
  lemma DefaultQuickSlotsWellFormed()
    ensures |DefaultQuickSlots| == 4
    ensures forall k :: 0 <= k < 4 ==> DefaultQuickSlots[k].number == k + 1 && DefaultQuickSlots[k].isEnabled
    ensures SortedByNumber(DefaultQuickSlots)
    ensures forall s :: s in DefaultQuickSlots ==> InSlotRange(s)
  {
  }

  /** The default table survives sanitising unchanged. */
  lemma DefaultQuickSlotsSanitized()
    ensures Sanitize(DefaultQuickSlots) == Some(DefaultQuickSlots)
  {
    DefaultQuickSlotsWellFormed();
    SanitizeKeepsTable(DefaultQuickSlots);
  }

  /** The slot table after loading: the sanitised stored table when it decodes and keeps
      exactly four slots, the defaults otherwise. */
  function LoadedSlots(stored: Option<seq<RawSlot>>): (r: seq<QuickTweakSlot>)
    ensures |r| == 4 && SortedByNumber(r) && forall s :: s in r ==> InSlotRange(s)
    ensures stored.Some? && DecodeSlots(stored.value).Some? && Sanitize(DecodeSlots(stored.value).value).Some? ==>
      r == Sanitize(DecodeSlots(stored.value).value).value
    ensures !(stored.Some? && DecodeSlots(stored.value).Some? && Sanitize(DecodeSlots(stored.value).value).Some?) ==>
      r == DefaultQuickSlots
  {
    DefaultQuickSlotsWellFormed();
    if stored.None? then DefaultQuickSlots
    else match DecodeSlots(stored.value)
      case None => DefaultQuickSlots
      case Some(decoded) =>
        match Sanitize(decoded)
        case Some(sanitized) => sanitized
        case None => DefaultQuickSlots
  }

  /** `updateQuickSlot`'s change to one slot: only the supplied fields. */
  function UpdatedSlot(slot: QuickTweakSlot, title: Option<string>, subtitle: Option<string>,
                       systemPrompt: Option<string>, isEnabled: Option<bool>): (r: QuickTweakSlot)
    ensures r.number == slot.number
    ensures r.title == title.GetOr(slot.title) && r.subtitle == subtitle.GetOr(slot.subtitle)
    ensures r.systemPrompt == systemPrompt.GetOr(slot.systemPrompt) && r.isEnabled == isEnabled.GetOr(slot.isEnabled)
  {
    QuickTweakSlot(slot.number, title.GetOr(slot.title), subtitle.GetOr(slot.subtitle),
      systemPrompt.GetOr(slot.systemPrompt), isEnabled.GetOr(slot.isEnabled))
  }

  /** The position of the first slot with this number. */
  function FirstSlotIndex(slots: seq<QuickTweakSlot>, number: int): (r: Option<nat>)
    ensures r.Some? ==> r.value < |slots| && slots[r.value].number == number
    ensures r.Some? ==> forall j :: 0 <= j < r.value ==> slots[j].number != number
    ensures r.None? <==> forall j :: 0 <= j < |slots| ==> slots[j].number != number
    decreases |slots|
  {
    if slots == [] then None
    else if slots[0].number == number then Some(0)
    else match FirstSlotIndex(slots[1..], number)
      case None => None
      case Some(i) => Some(i + 1)
  }

  // =======================================================================================
  // Models

  predicate SortedById(models: seq<OsaurusModel>) {
    forall i :: 0 <= i < |models| - 1 ==> !Less(models[i + 1].id, models[i].id)
  }

  function InsertById(x: OsaurusModel, models: seq<OsaurusModel>): (r: seq<OsaurusModel>)
    requires SortedById(models)
    ensures SortedById(r)
    ensures multiset(r) == multiset(models) + multiset{x}
    ensures r != [] && (r[0] == x || (models != [] && r[0] == models[0]))
    decreases |models|
  {
    if models == [] || !Less(models[0].id, x.id) then
      assert models != [] ==> !Less(models[0].id, x.id);
      [x] + models
    else
      var rest := InsertById(x, models[1..]);
      assert models == [models[0]] + models[1..];
      assert !Less(rest[0].id, models[0].id) by {
        if rest[0] == x {
          if Less(x.id, models[0].id) {
            LessTransitive(x.id, models[0].id, x.id);
            LessIrreflexive(x.id);
          }
        }
      }
      [models[0]] + rest
  }

  /** `models.sorted { $0.id < $1.id }`, as an insertion sort. */
  function SortModels(models: seq<OsaurusModel>): (r: seq<OsaurusModel>)
    ensures SortedById(r)
    ensures multiset(r) == multiset(models)
    decreases |models|
  {
    if models == [] then []
    else
      assert models == [models[0]] + models[1..];
      InsertById(models[0], SortModels(models[1..]))
  }

  /** An adjacent-pairs ordering is an all-pairs ordering. */
  lemma {:induction false} SortedByIdAllPairs(models: seq<OsaurusModel>, i: nat, j: nat)
    requires SortedById(models) && i < j < |models|
    ensures !Less(models[j].id, models[i].id)
    decreases j - i
  {
    if j > i + 1 {
      SortedByIdAllPairs(models, i + 1, j);
      if Less(models[j].id, models[i].id) {
        LessTotal(models[i + 1].id, models[i].id);
        if Less(models[i].id, models[i + 1].id) {
          LessTransitive(models[j].id, models[i].id, models[i + 1].id);
        }
      }
    }
  }

  /** The selected model after a fetch: kept when the list has it, else the first model's id
      when there is one, else kept. */
  function SelectionAfterFetch(models: seq<OsaurusModel>, selected: string): (r: string)
    ensures (exists k :: 0 <= k < |models| && models[k].id == selected) ==> r == selected
    ensures (forall k :: 0 <= k < |models| ==> models[k].id != selected) && models != [] ==> r == models[0].id
    ensures models == [] ==> r == selected
    ensures models != [] ==> exists k :: 0 <= k < |models| && models[k].id == r
  {
    if exists k :: 0 <= k < |models| && models[k].id == selected then selected
    else if models != [] then models[0].id
    else selected
  }

  // =======================================================================================
  // The store

  /** What UserDefaults holds at launch: each entry present and decodable, or not. */
  datatype SavedSettings = SavedSettings(
    prompts: Option<seq<SystemPrompt>>,
    quickSlots: Option<seq<RawSlot>>,
    activePromptId: Option<PromptId>,
    selectedModel: Option<string>)

  /** One more than the largest id in the list. */
  function NextFreeId(prompts: seq<SystemPrompt>): (n: PromptId)
    ensures forall p :: p in prompts ==> p.id < n
    decreases |prompts|
  {
    if prompts == [] then 0
    else
      var rest := NextFreeId(prompts[1..]);
      assert forall p :: p in prompts ==> p == prompts[0] || p in prompts[1..];
      if prompts[0].id + 1 > rest then prompts[0].id + 1 else rest
  }

  /** Whether `Osaurus.make()` finds a server: a parseable `OSAURUS_BASE_URL`, or at least
      one running instance in the shared directory. */
  predicate Connectable(env: Environment, parsers: Parsers, listing: Option<seq<InstanceDir>>) {
    || (env.baseUrl.Some? && parsers.url(env.baseUrl.value).Some?)
    || (listing.Some? && Candidates(listing.value, parsers) != [])
  }

  class SettingsManager {
    var availableModels: seq<OsaurusModel>
    var selectedModelId: string
    var systemPrompts: seq<SystemPrompt>
    var activePromptId: Option<PromptId>
    var quickSlots: seq<QuickTweakSlot>
    var isLoadingModels: bool
    var modelsFetchError: Option<OsaurusError>
    /** Source of fresh prompt ids, above every id in the list. */
    var nextId: PromptId

    /** Exactly four slots numbered 1 to 4, and every prompt id below `nextId`. */
    predicate Valid()
      reads this
    {
      && |quickSlots| == 4
      && (forall k :: 0 <= k < |quickSlots| ==> InSlotRange(quickSlots[k]))
      && (forall p :: p in systemPrompts ==> p.id < nextId)
    }

    /** `init()`: load what was saved; seed a single active default prompt when no prompt
        was loaded, and the default slots when the loaded table is not exactly four. */
    constructor (saved: SavedSettings)
      ensures Valid()
      ensures systemPrompts != []
      ensures saved.prompts.Some? && saved.prompts.value != [] ==>
        systemPrompts == saved.prompts.value && activePromptId == saved.activePromptId
      ensures !(saved.prompts.Some? && saved.prompts.value != []) ==>
        |systemPrompts| == 1 && systemPrompts[0].isDefault && systemPrompts[0].name == DefaultPromptName &&
        systemPrompts[0].content == DefaultSystemPrompt && activePromptId == Some(systemPrompts[0].id)
      ensures (saved.prompts.Some? ==> DistinctIds(saved.prompts.value)) ==> DistinctIds(systemPrompts)
      ensures quickSlots == LoadedSlots(saved.quickSlots)
      ensures selectedModelId == saved.selectedModel.GetOr(DefaultModel)
      ensures availableModels == [] && !isLoadingModels && modelsFetchError.None?
    {
      availableModels := [];
      isLoadingModels := false;
      modelsFetchError := None;
      var prompts := if saved.prompts.Some? then saved.prompts.value else [];
      var freeId := NextFreeId(prompts);
      if prompts == [] {
        systemPrompts := [SystemPrompt(freeId, DefaultPromptName, DefaultSystemPrompt, true)];
        activePromptId := Some(freeId);
        nextId := freeId + 1;
      } else {
        systemPrompts := prompts;
        activePromptId := saved.activePromptId;
        nextId := freeId;
      }
      quickSlots := LoadedSlots(saved.quickSlots);
      selectedModelId := saved.selectedModel.GetOr(DefaultModel);
    }

    /** `activePrompt`: the first prompt whose id is the active id. */
    function ActivePrompt(): (r: Option<SystemPrompt>)
      reads this
      ensures r.Some? ==> r.value in systemPrompts && Some(r.value.id) == activePromptId
      ensures r.None? <==> (activePromptId.None? ||
        forall j :: 0 <= j < |systemPrompts| ==> systemPrompts[j].id != activePromptId.value)
    {
      FirstWithId(systemPrompts, activePromptId)
    }

    /** `addPrompt`: one new non-default prompt, with a fresh id, at the end. */
    method AddPrompt(name: string, content: string)
      requires Valid()
      modifies this
      ensures Valid()
      ensures systemPrompts == old(systemPrompts) + [SystemPrompt(old(nextId), name, content, false)]
      ensures forall p :: p in old(systemPrompts) ==> p.id != old(nextId)
      ensures DistinctIds(old(systemPrompts)) ==> DistinctIds(systemPrompts)
      ensures activePromptId == old(activePromptId) && quickSlots == old(quickSlots)
      ensures availableModels == old(availableModels) && selectedModelId == old(selectedModelId)
      ensures isLoadingModels == old(isLoadingModels) && modelsFetchError == old(modelsFetchError)
    {
      systemPrompts := systemPrompts + [SystemPrompt(nextId, name, content, false)];
      nextId := nextId + 1;
    }

    /** `updatePrompt`: the name and content of the first prompt with the id; nothing for
        an unknown id. */
    method UpdatePrompt(id: PromptId, name: string, content: string)
      requires Valid()
      modifies this
      ensures Valid()
      ensures FirstIndexOf(old(systemPrompts), id).None? ==> systemPrompts == old(systemPrompts)
      ensures FirstIndexOf(old(systemPrompts), id).Some? ==>
        var i := FirstIndexOf(old(systemPrompts), id).value;
        systemPrompts == old(systemPrompts)[i := old(systemPrompts)[i].(name := name, content := content)]
      ensures DistinctIds(old(systemPrompts)) ==> DistinctIds(systemPrompts)
      ensures activePromptId == old(activePromptId) && quickSlots == old(quickSlots) && nextId == old(nextId)
      ensures availableModels == old(availableModels) && selectedModelId == old(selectedModelId)
      ensures isLoadingModels == old(isLoadingModels) && modelsFetchError == old(modelsFetchError)
    {
      match FirstIndexOf(systemPrompts, id)
      case None =>
      case Some(i) =>
        systemPrompts := systemPrompts[i := systemPrompts[i].(name := name, content := content)];
    }

    /** `deletePrompt`: nothing for an unknown id or a default prompt; otherwise every
        prompt with the id goes, and a deleted active id moves on. */
    method DeletePrompt(id: PromptId)
      requires Valid()
      modifies this
      ensures Valid()
      ensures !Deletable(old(systemPrompts), id) ==>
        systemPrompts == old(systemPrompts) && activePromptId == old(activePromptId)
      ensures Deletable(old(systemPrompts), id) ==>
        && systemPrompts == WithoutId(old(systemPrompts), id)
        && activePromptId == ActiveAfterDelete(old(activePromptId), id, systemPrompts)
      ensures forall p :: p in systemPrompts ==> p in old(systemPrompts)
      ensures Deletable(old(systemPrompts), id) ==> forall p :: p in systemPrompts ==> p.id != id
      ensures DistinctIds(old(systemPrompts)) ==> DistinctIds(systemPrompts)
      ensures DistinctIds(old(systemPrompts)) ==>
        forall p :: p in old(systemPrompts) && p.isDefault ==> p in systemPrompts
      ensures quickSlots == old(quickSlots) && nextId == old(nextId)
      ensures availableModels == old(availableModels) && selectedModelId == old(selectedModelId)
      ensures isLoadingModels == old(isLoadingModels) && modelsFetchError == old(modelsFetchError)
    {
      var prompt := FirstWithId(systemPrompts, Some(id));
      if prompt.None? || prompt.value.isDefault {
        return;
      }
      WithoutIdKeepsOthers(systemPrompts, id);
      if DistinctIds(systemPrompts) {
        DeletionSparesDefaults(systemPrompts, id);
        WithoutIdKeepsDistinct(systemPrompts, id);
      }
      systemPrompts := WithoutId(systemPrompts, id);
      activePromptId := ActiveAfterDelete(activePromptId, id, systemPrompts);
    }

    /** `setActivePrompt`. */
    method SetActivePrompt(id: PromptId)
      modifies this
      ensures activePromptId == Some(id)
      ensures systemPrompts == old(systemPrompts) && quickSlots == old(quickSlots) && nextId == old(nextId)
      ensures availableModels == old(availableModels) && selectedModelId == old(selectedModelId)
      ensures isLoadingModels == old(isLoadingModels) && modelsFetchError == old(modelsFetchError)
    {
      activePromptId := Some(id);
    }

    /** `selectModel`. */
    method SelectModel(modelId: string)
      modifies this
      ensures selectedModelId == modelId
      ensures systemPrompts == old(systemPrompts) && activePromptId == old(activePromptId)
      ensures quickSlots == old(quickSlots) && availableModels == old(availableModels) && nextId == old(nextId)
      ensures isLoadingModels == old(isLoadingModels) && modelsFetchError == old(modelsFetchError)
    {
      selectedModelId := modelId;
    }

    /** `updateQuickSlot`: the supplied fields of the first slot with that number; nothing
        for an unknown number. */
    method UpdateQuickSlot(number: int, title: Option<string>, subtitle: Option<string>,
                           systemPrompt: Option<string>, isEnabled: Option<bool>)
      requires Valid()
      modifies this
      ensures Valid()
      ensures FirstSlotIndex(old(quickSlots), number).None? ==> quickSlots == old(quickSlots)
      ensures FirstSlotIndex(old(quickSlots), number).Some? ==>
        var i := FirstSlotIndex(old(quickSlots), number).value;
        quickSlots == old(quickSlots)[i := UpdatedSlot(old(quickSlots)[i], title, subtitle, systemPrompt, isEnabled)]
      ensures forall k :: 0 <= k < |quickSlots| ==> quickSlots[k].number == old(quickSlots)[k].number
      ensures systemPrompts == old(systemPrompts) && activePromptId == old(activePromptId) && nextId == old(nextId)
      ensures availableModels == old(availableModels) && selectedModelId == old(selectedModelId)
      ensures isLoadingModels == old(isLoadingModels) && modelsFetchError == old(modelsFetchError)
    {
      match FirstSlotIndex(quickSlots, number)
      case None =>
      case Some(idx) =>
        quickSlots := quickSlots[idx := UpdatedSlot(quickSlots[idx], title, subtitle, systemPrompt, isEnabled)];
    }

    /** `fetchAvailableModels()`: connect with `Osaurus.make()` and list the models. On
        success the list is stored sorted by id and a selection the list lacks moves to the
        first model; on failure the list and selection stay and the error is recorded. The
        loading flag ends cleared. */
    method FetchAvailableModels(env: Environment, parsers: Parsers, listing: Option<seq<InstanceDir>>,
                                reply: Reply<ModelsResponse>)
      requires Valid()
      modifies this
      ensures Valid()
      ensures !isLoadingModels
      ensures modelsFetchError.None? ==>
        exists models :: ListModels(reply) == Success(models) &&
          availableModels == SortModels(models) &&
          selectedModelId == SelectionAfterFetch(availableModels, old(selectedModelId))
      ensures modelsFetchError.Some? ==>
        availableModels == old(availableModels) && selectedModelId == old(selectedModelId)
      ensures modelsFetchError.None? ==> (SortedById(availableModels) &&
        (availableModels != [] ==> exists k :: 0 <= k < |availableModels| && availableModels[k].id == selectedModelId))
      ensures modelsFetchError.Some? <==> !Connectable(env, parsers, listing) || ListModels(reply).Failure?
      ensures !Connectable(env, parsers, listing) ==> modelsFetchError == Some(DiscoveryFailed)
      ensures Connectable(env, parsers, listing) && ListModels(reply).Failure? ==>
        modelsFetchError == Some(ListModels(reply).error)
      ensures systemPrompts == old(systemPrompts) && activePromptId == old(activePromptId)
      ensures quickSlots == old(quickSlots) && nextId == old(nextId)
    {
      isLoadingModels := true;
      modelsFetchError := None;
      var client := Make(env, parsers, listing);
      if client.Failure? {
        modelsFetchError := Some(client.error);
      } else {
        var models := ListModels(reply);
        if models.Failure? {
          modelsFetchError := Some(models.error);
        } else {
          availableModels := SortModels(models.value);
          selectedModelId := SelectionAfterFetch(availableModels, selectedModelId);
        }
      }
      isLoadingModels := false;
    }
  }
}
