/** The tag chip/autocomplete widget (`TagEditComponent`): which catalogue tags
    are suggested for the typed text, which assigned tags are shown as chips,
    and which events a chip entry, an autocomplete pick, a chip removal or a
    key press emits. The tag catalogue (`tagSuggestions`) and the assigned ids
    (`tagIds`) are snapshots the host supplies; every `EventEmitter` is one
    append-only `events` log. */
module TagEdit {
  import opened JsArray
  import opened JsText

  /** A catalogue tag as the widget sees it. */
  datatype Suggestion = Suggestion(id: string, title: string)

  /** What the widget emits: `addItem`, `addNewItem`, `removeItem` and
      `ctrlEnterSubmit`. */
  datatype TagEvent =
    | AddItem(id: string)
    | AddNewItem(title: string)
    | RemoveItem(id: string)
    | CtrlEnterSubmit

  /** Key codes of the Angular CDK (`ENTER`, `COMMA`). */
  const ENTER: int := 13
  const COMMA: int := 188
  const DEFAULT_SEPARATOR_KEY_CODES: seq<int> := [ENTER, COMMA]

  // ---------------------------------------------------------------------------
  // Suggestions

  /** The test `filteredSuggestions` applies to each catalogue tag once some
      text is typed: the lowercased title starts with the lowercased text
      `filterValue`, and the tag is not assigned yet. */
  function IsSuggestedFor(filterValue: string, tagIds: seq<string>): Suggestion -> bool {
    (s: Suggestion) => StartsWith(Lower(s.title), filterValue) && s.id !in tagIds
  }

  /** `filteredSuggestions`: with no text typed (`undefined`, `null` or the
      empty string) the whole catalogue, assigned tags included; otherwise
      the catalogue tags whose title starts with the text, ignoring ASCII
      case, and that are not assigned yet. */
  function FilteredSuggestions(inputVal: Option<string>, tagSuggestions: seq<Suggestion>, tagIds: seq<string>)
    : (r: seq<Suggestion>)
    ensures inputVal.None? || inputVal.value == "" ==> r == tagSuggestions
    ensures inputVal.Some? && inputVal.value != "" ==>
      && (forall k :: 0 <= k < |r| ==>
            r[k] in tagSuggestions && StartsWith(Lower(r[k].title), Lower(inputVal.value)) && r[k].id !in tagIds)
      && (forall i :: 0 <= i < |tagSuggestions| ==>
            StartsWith(Lower(tagSuggestions[i].title), Lower(inputVal.value)) && tagSuggestions[i].id !in tagIds
            ==> tagSuggestions[i] in r)
  {
    if inputVal.None? || inputVal.value == "" then tagSuggestions
    else Filter(tagSuggestions, IsSuggestedFor(Lower(inputVal.value), tagIds))
  }

  /** With text typed, the suggestions are the catalogue restricted to an
      increasing list of positions, and a position is in that list exactly
      when its tag matches the text and is unassigned: catalogue order is
      kept and nothing is re-ranked. */
  lemma FilteredSuggestionsKeepCatalogueOrder(v: string, tagSuggestions: seq<Suggestion>, tagIds: seq<string>)
    requires v != ""
    ensures var r := FilteredSuggestions(Some(v), tagSuggestions, tagIds);
            var ix := KeptIndices(tagSuggestions, IsSuggestedFor(Lower(v), tagIds));
            && |r| == |ix|
            && (forall k :: 0 <= k < |r| ==> r[k] == tagSuggestions[ix[k]])
            && (forall k, l :: 0 <= k < l < |ix| ==> ix[k] < ix[l])
            && (forall i :: 0 <= i < |tagSuggestions| ==>
                  (i in ix <==> StartsWith(Lower(tagSuggestions[i].title), Lower(v)) && tagSuggestions[i].id !in tagIds))
  {
    FilterSelectsKeptIndices(tagSuggestions, IsSuggestedFor(Lower(v), tagIds));
  }

  /** The filter ignores the case of the typed text. */
  lemma FilteredSuggestionsIgnoreInputCase(v: string, w: string, tagSuggestions: seq<Suggestion>, tagIds: seq<string>)
    requires Lower(v) == Lower(w) && v != "" && w != ""
    ensures FilteredSuggestions(Some(v), tagSuggestions, tagIds) == FilteredSuggestions(Some(w), tagSuggestions, tagIds)
  {
  }

  /** A worked example: "wo" suggests "Work" and not "Home". */
  lemma FilteredSuggestionsExample()
    ensures FilteredSuggestions(Some("wo"), [Suggestion("1", "Work"), Suggestion("2", "Home")], [])
            == [Suggestion("1", "Work")]
  {
    var work, home := Suggestion("1", "Work"), Suggestion("2", "Home");
    var keep := IsSuggestedFor(Lower("wo"), []);
    assert Lower("wo") == "wo";
    assert keep(work) by { assert Lower("Work")[..2] == "wo"; }
    assert !keep(home) by { assert Lower("Home")[0] == 'h'; }
    assert [work, home][..1] == [work];
    assert [work][..0] == [];
    assert Filter([work], keep) == Filter([], keep) + [work];
    assert Filter([work, home], keep) == Filter([work], keep) + [];
  }

  // ---------------------------------------------------------------------------
  // Assigned tags as chips

  /** The test `suggestions.find` applies to each catalogue tag at line 99:
      the tag has the given id. */
  function HasId(id: string): Suggestion -> bool {
    (s: Suggestion) => s.id == id
  }

  /** `.filter((v) => v)` keeps the lookups that found a tag. */
  function IsFound(o: Option<Suggestion>): bool {
    o.Some?
  }

  /** Each assigned id looked up in the catalogue, position by position: a
      lookup finds a tag exactly when the catalogue has that id, and then it
      is the first catalogue tag with that id. */
  function Lookups(tagSuggestions: seq<Suggestion>, tagIds: seq<string>): (found: seq<Option<Suggestion>>)
    ensures |found| == |tagIds|
    ensures forall i :: 0 <= i < |tagIds| ==>
              (found[i].Some? <==> exists j :: 0 <= j < |tagSuggestions| && tagSuggestions[j].id == tagIds[i])
    ensures forall i :: 0 <= i < |tagIds| && found[i].Some? ==>
              exists j :: 0 <= j < |tagSuggestions| && tagSuggestions[j] == found[i].value && found[i].value.id == tagIds[i]
                          && forall j' :: 0 <= j' < j ==> tagSuggestions[j'].id != tagIds[i]
  {
    seq(|tagIds|, i requires 0 <= i < |tagIds| => Find(tagSuggestions, HasId(tagIds[i])))
  }

  /** The values of a sequence of lookups that all found something. */
  function Values(os: seq<Option<Suggestion>>): (r: seq<Suggestion>)
    requires forall k :: 0 <= k < |os| ==> os[k].Some?
    ensures |r| == |os|
    ensures forall k :: 0 <= k < |os| ==> os[k] == Some(r[k])
  {
    seq(|os|, k requires 0 <= k < |os| && os[k].Some? => os[k].value)
  }

  /** `tagItems`: the assigned ids resolved to catalogue tags, ids without a
      catalogue tag dropped; nothing at all while the catalogue is empty. */
  function TagItems(tagSuggestions: seq<Suggestion>, tagIds: seq<string>): (r: seq<Suggestion>)
    ensures tagSuggestions == [] ==> r == []
    ensures |r| <= |tagIds|
    ensures forall k :: 0 <= k < |r| ==> r[k] in tagSuggestions && r[k].id in tagIds
  {
    if |tagSuggestions| == 0 then []
    else
      var kept := Filter(Lookups(tagSuggestions, tagIds), IsFound);
      var r := Values(kept);
      assert forall k :: 0 <= k < |r| ==> kept[k] in Lookups(tagSuggestions, tagIds) && r[k] in tagSuggestions && r[k].id in tagIds by {
        forall k | 0 <= k < |r| ensures kept[k] in Lookups(tagSuggestions, tagIds) && r[k] in tagSuggestions && r[k].id in tagIds {
          var i :| 0 <= i < |tagIds| && Lookups(tagSuggestions, tagIds)[i] == kept[k];
        }
      }
      r
  }

  /** The chips follow the order of `tagIds`: they are the first catalogue
      tags for an increasing list of positions of `tagIds`, and a position is
      in that list exactly when the catalogue has a tag with that id. */
  lemma TagItemsFollowTagIds(tagSuggestions: seq<Suggestion>, tagIds: seq<string>)
    requires tagSuggestions != []
    ensures var r := TagItems(tagSuggestions, tagIds);
            var ix := KeptIndices(Lookups(tagSuggestions, tagIds), IsFound);
            && |r| == |ix|
            && (forall k, l :: 0 <= k < l < |ix| ==> ix[k] < ix[l])
            && (forall k :: 0 <= k < |r| ==>
                  ix[k] < |tagIds| && r[k].id == tagIds[ix[k]] && Find(tagSuggestions, HasId(tagIds[ix[k]])) == Some(r[k]))
            && (forall i :: 0 <= i < |tagIds| ==>
                  (i in ix <==> exists j :: 0 <= j < |tagSuggestions| && tagSuggestions[j].id == tagIds[i]))
  {
    var found := Lookups(tagSuggestions, tagIds);
    FilterSelectsKeptIndices(found, IsFound);
    var ix := KeptIndices(found, IsFound);
    forall i | 0 <= i < |tagIds|
      ensures i in ix <==> exists j :: 0 <= j < |tagSuggestions| && tagSuggestions[j].id == tagIds[i]
    {
      if exists j :: 0 <= j < |tagSuggestions| && tagSuggestions[j].id == tagIds[i] {
        var j :| 0 <= j < |tagSuggestions| && tagSuggestions[j].id == tagIds[i];
        assert HasId(tagIds[i])(tagSuggestions[j]);
        assert IsFound(found[i]);
      }
    }
  }

  // ---------------------------------------------------------------------------
  // Chip entry and the events it emits

  /** True when `s` has exactly the title `v`. */
  function HasTitle(v: string): Suggestion -> bool {
    (s: Suggestion) => s.title == v
  }

  /** `_getExistingSuggestionByTitle`: the first catalogue tag whose title
      equals `v` exactly (case-sensitive, not a prefix). */
  function ExistingSuggestionByTitle(tagSuggestions: seq<Suggestion>, v: string): (r: Option<Suggestion>)
    ensures r.None? <==> forall i :: 0 <= i < |tagSuggestions| ==> tagSuggestions[i].title != v
    ensures r.Some? ==> exists i :: 0 <= i < |tagSuggestions| && tagSuggestions[i] == r.value && r.value.title == v
                                    && forall j :: 0 <= j < i ==> tagSuggestions[j].title != v
  {
    var r := Find(tagSuggestions, HasTitle(v));
    assert r.None? <==> forall i :: 0 <= i < |tagSuggestions| ==> !HasTitle(v)(tagSuggestions[i]);
    r
  }

  /** `_add`: `addItem(id)` unless `id` is assigned already, which prevents a
      second chip for the same tag. */
  function AttachEvents(tagIds: seq<string>, id: string): (r: seq<TagEvent>)
    ensures r == [] <==> id in tagIds
    ensures r != [] ==> r == [AddItem(id)]
  {
    if id in tagIds then [] else [AddItem(id)]
  }

  /** `_addByTitle`: an exact title match is attached through `_add` (so it
      emits nothing when already assigned); any other text asks for a new
      tag with exactly that title. At most one event is emitted. */
  function AddByTitleEvents(tagSuggestions: seq<Suggestion>, tagIds: seq<string>, v: string): (r: seq<TagEvent>)
    ensures |r| <= 1
    ensures r == [AddNewItem(v)] <==> forall i :: 0 <= i < |tagSuggestions| ==> tagSuggestions[i].title != v
    ensures forall k :: 0 <= k < |r| && r[k].AddItem? ==>
              r[k].id !in tagIds && exists i :: 0 <= i < |tagSuggestions| && tagSuggestions[i] == Suggestion(r[k].id, v)
    ensures forall k :: 0 <= k < |r| ==> r[k].AddItem? || r[k] == AddNewItem(v)
    ensures r == [] ==> exists i :: 0 <= i < |tagSuggestions| && tagSuggestions[i].title == v && tagSuggestions[i].id in tagIds
    ensures forall i :: 0 <= i < |tagSuggestions| && tagSuggestions[i].title == v
                        && (forall j :: 0 <= j < i ==> tagSuggestions[j].title != v) ==>
              r == AttachEvents(tagIds, tagSuggestions[i].id)
  {
    match ExistingSuggestionByTitle(tagSuggestions, v)
    case Some(existing) => AttachEvents(tagIds, existing.id)
    case None => [AddNewItem(v)]
  }

  /** What `add` emits for the text of a chip entry while the autocomplete
      panel is closed: nothing for whitespace-only text, otherwise
      `_addByTitle` of the trimmed text. A requested new tag therefore never
      has an empty title or whitespace at either end. */
  function ChipInputEvents(tagSuggestions: seq<Suggestion>, tagIds: seq<string>, value: string): (r: seq<TagEvent>)
    ensures (forall k :: 0 <= k < |value| ==> IsJsWhitespace(value[k])) ==> r == []
    ensures |r| <= 1
    ensures forall k :: 0 <= k < |r| && r[k].AddNewItem? ==>
              && r[k].title == Trim(value) && r[k].title != ""
              && !IsJsWhitespace(r[k].title[0]) && !IsJsWhitespace(r[k].title[|r[k].title| - 1])
              && forall i :: 0 <= i < |tagSuggestions| ==> tagSuggestions[i].title != Trim(value)
    ensures forall k :: 0 <= k < |r| && r[k].AddItem? ==>
              r[k].id !in tagIds && exists i :: 0 <= i < |tagSuggestions| && tagSuggestions[i] == Suggestion(r[k].id, Trim(value))
    ensures Trim(value) != "" && (forall i :: 0 <= i < |tagSuggestions| ==> tagSuggestions[i].title != Trim(value)) ==>
              r == [AddNewItem(Trim(value))]
    ensures Trim(value) != "" ==>
              forall i :: 0 <= i < |tagSuggestions| && tagSuggestions[i].title == Trim(value)
                          && (forall j :: 0 <= j < i ==> tagSuggestions[j].title != Trim(value)) ==>
                r == AttachEvents(tagIds, tagSuggestions[i].id)
  {
    var t := Trim(value);
    if t == [] then [] else AddByTitleEvents(tagSuggestions, tagIds, t)
  }

  /** The ids `AddItem` events ask the host to append, in order; the host is
      not part of this component, so this is its assumed reaction. */
  function AttachedIds(events: seq<TagEvent>): (ids: seq<string>)
    ensures |ids| <= |events|
    ensures forall k :: 0 <= k < |ids| ==> AddItem(ids[k]) in events
    ensures forall k :: 0 <= k < |events| && events[k].AddItem? ==> events[k].id in ids
  {
    if events == [] then []
    else AttachedIds(events[..|events| - 1])
         + (if events[|events| - 1].AddItem? then [events[|events| - 1].id] else [])
  }

  /** No duplicate attachment: if the host appends what `_add` emits, the
      assignment stays duplicate-free and adding the same id again emits
      nothing. */
  lemma AttachIsIdempotent(tagIds: seq<string>, id: string)
    requires NoDuplicates(tagIds)
    ensures var after := tagIds + AttachedIds(AttachEvents(tagIds, id));
            NoDuplicates(after) && id in after && AttachEvents(after, id) == []
  {
  }

  /** Typing the title of a catalogue tag twice attaches it once: after the
      host appends what the first entry emitted, the second emits nothing. */
  lemma ExistingTitleAttachesOnce(tagSuggestions: seq<Suggestion>, tagIds: seq<string>, value: string)
    requires NoDuplicates(tagIds)
    requires exists i :: 0 <= i < |tagSuggestions| && tagSuggestions[i].title == Trim(value)
    requires Trim(value) != ""
    ensures var after := tagIds + AttachedIds(ChipInputEvents(tagSuggestions, tagIds, value));
            NoDuplicates(after) && ChipInputEvents(tagSuggestions, after, value) == []
  {
  }

  /** Worked examples of an add request and of `_add`. */
  lemma AddByTitleExamples()
    ensures AddByTitleEvents([Suggestion("1", "Work")], [], "Work") == [AddItem("1")]
    ensures AddByTitleEvents([Suggestion("1", "Work")], [], "NewTag") == [AddNewItem("NewTag")]
    ensures AttachEvents(["1", "2"], "1") == [] && AttachEvents(["1", "2"], "3") == [AddItem("3")]
  {
  }

  // ---------------------------------------------------------------------------
  // The component

  /** The text field the chips are typed into (the DOM input element); `add`
      clears the one its event carries, `selected` the one the view holds. */
  class InputElement {
    var value: string

    constructor (value: string)
      ensures this.value == value
    {
      this.value := value;
    }
  }

  /** The autocomplete panel (`MatAutocomplete`), open or closed. */
  datatype Autocomplete = Autocomplete(isOpen: bool)

  /** A chip entry (`MatChipInputEvent`): the input it came from and its text. */
  datatype ChipInputEvent = ChipInputEvent(input: InputElement, value: string)

  /** A key press (`KeyboardEvent`): its `key`, its `code` and whether Ctrl is held. */
  datatype KeyPress = KeyPress(key: string, code: string, ctrlKey: bool)

  /** A call that completes, or throws the given error. */
  datatype Outcome = Pass | Fail(error: string)

  class TagEditComponent {
    /** The `tagIds` input: assigned ids, in display order (set by the host). */
    var tagIds: seq<string>
    /** The tag catalogue snapshot (`tagSuggestions`). */
    var tagSuggestions: seq<Suggestion>
    /** The value of `inputCtrl` (`None` for `null`). */
    var inputVal: Option<string>
    /** The keys that end a chip entry. */
    var separatorKeysCodes: seq<int>
    /** Every event emitted so far, in order. */
    var events: seq<TagEvent>
    /** The `matAutocomplete` view child, when the view has one. */
    var matAutocomplete: Option<Autocomplete>
    /** The `inputEl` view child, when the view has one. */
    var inputEl: InputElement?

    constructor (tagIds: seq<string>, tagSuggestions: seq<Suggestion>,
                 matAutocomplete: Option<Autocomplete>, inputEl: InputElement?)
      ensures this.tagIds == tagIds && this.tagSuggestions == tagSuggestions
      ensures this.matAutocomplete == matAutocomplete && this.inputEl == inputEl
      ensures inputVal == None && separatorKeysCodes == DEFAULT_SEPARATOR_KEY_CODES && events == []
    {
      this.tagIds := tagIds;
      this.tagSuggestions := tagSuggestions;
      this.matAutocomplete := matAutocomplete;
      this.inputEl := inputEl;
      inputVal := None;
      separatorKeysCodes := DEFAULT_SEPARATOR_KEY_CODES;
      events := [];
    }

    /** `add`: fails when there is no autocomplete; does nothing while its
        panel is open; otherwise emits what the entry's text asks for and
        clears both the input element and the control. */
    method Add(event: ChipInputEvent) returns (r: Outcome)
      modifies this, event.input
      ensures matAutocomplete.None? ==>
                r == Fail("Auto complete undefined") && unchanged(this, event.input)
      ensures matAutocomplete.Some? && matAutocomplete.value.isOpen ==>
                r == Pass && unchanged(this, event.input)
      ensures matAutocomplete.Some? && !matAutocomplete.value.isOpen ==>
                && r == Pass
                && events == old(events) + ChipInputEvents(tagSuggestions, tagIds, event.value)
                && event.input.value == ""
                && inputVal == None
      ensures unchanged(this`tagIds, this`tagSuggestions, this`separatorKeysCodes, this`matAutocomplete, this`inputEl)
    {
      if matAutocomplete.None? {
        return Fail("Auto complete undefined");
      }
      if !matAutocomplete.value.isOpen {
        var inp := event.input;
        var value := event.value;
        if Trim(value) != "" {
          AddByTitle(Trim(value));
        }
        inp.value := "";
        inputVal := None;
      }
      r := Pass;
    }

    /** `remove`: emits `removeItem` with the id unchanged. */
    method Remove(id: string)
      modifies this`events
      ensures events == old(events) + [RemoveItem(id)]
    {
      events := events + [RemoveItem(id)];
    }

    /** `selected`: attaches the picked option through `_add`, then clears the
        input element (when there is one) and the control. */
    method Selected(optionValue: string)
      modifies this`events, this`inputVal, inputEl
      ensures events == old(events) + AttachEvents(tagIds, optionValue)
      ensures inputEl != null ==> inputEl.value == ""
      ensures inputVal == None
    {
      Attach(optionValue);
      if inputEl != null {
        inputEl.value := "";
      }
      inputVal := None;
    }

    /** `triggerCtrlEnterSubmit`: while a Cyrillic letter is typed only Enter
        ends a chip (the comma key writes a letter on Russian layouts);
        otherwise Enter and comma do. Ctrl+Enter also emits
        `ctrlEnterSubmit`. */
    method TriggerCtrlEnterSubmit(ev: KeyPress)
      modifies this`separatorKeysCodes, this`events
      ensures separatorKeysCodes == if IsCyrillicLetterKey(ev.key) then [ENTER] else [ENTER, COMMA]
      ensures COMMA in separatorKeysCodes <==> !IsCyrillicLetterKey(ev.key)
      ensures events == old(events) + (if ev.code == "Enter" && ev.ctrlKey then [CtrlEnterSubmit] else [])
    {
      var isCyrillic := IsCyrillicLetterKey(ev.key);
      if isCyrillic {
        separatorKeysCodes := [ENTER];
      } else {
        separatorKeysCodes := DEFAULT_SEPARATOR_KEY_CODES;
      }
      if ev.code == "Enter" && ev.ctrlKey {
        events := events + [CtrlEnterSubmit];
      }
    }

    /** `_add`. */
    method Attach(id: string)
      modifies this`events
      ensures events == old(events) + AttachEvents(tagIds, id)
    {
      if id !in tagIds {
        events := events + [AddItem(id)];
      }
    }

    /** `_addByTitle`. */
    method AddByTitle(v: string)
      modifies this`events
      ensures events == old(events) + AddByTitleEvents(tagSuggestions, tagIds, v)
    {
      var existing := ExistingSuggestionByTitle(tagSuggestions, v);
      if existing.Some? {
        Attach(existing.value.id);
      } else {
        events := events + [AddNewItem(v)];
      }
    }
  }
}
