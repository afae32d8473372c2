/** The StorytellerApp component: its state fields, the handlers that move it
    between states, and the two effects that load the saved collection from local
    storage on mount and write it back whenever it changes. */
module Storyteller {
  import opened Stories

  /** The browser's local storage, reduced to the one key "savedStories". `None`
      is an absent key; a present value is the list the component last wrote
      (serialisation and parsing are left abstract). */
  class Storage {
    var slot: Option<seq<Story>>

    constructor (initial: Option<seq<Story>>)
      ensures slot == initial
    {
      slot := initial;
    }
  }

  class StorytellerApp {
    // the draft being written
    var theme: string
    var isLoading: bool
    var story: string
    // the saved collection, newest first
    var savedStories: seq<Story>
    // which view is shown, and the record open in the gallery's detail view
    var showGallery: bool
    var selectedStory: Option<Story>
    /** Themes captured by generation callbacks that handleSubmit scheduled and
        that have not fired yet, oldest first (every callback has the same delay). */
    var pending: seq<string>
    /** The storage the component loads from and writes to. */
    const storage: Storage

    /** Write-through: the storage slot holds the whole saved collection. */
    ghost predicate Valid()
      reads this, storage
    {
      storage.slot == Some(savedStories)
    }

    /** The record open in the detail view has id `id`. */
    predicate IsSelected(id: string)
      reads this
    {
      selectedStory.Some? && selectedStory.value.id == id
    }

    /** Mounting: every field takes its initial value, the load effect replaces the
        collection with a present slot, and the persist effect then writes the
        collection back. */
    constructor (storage: Storage)
      modifies storage
      ensures this.storage == storage
      ensures theme == "" && !isLoading && story == ""
      ensures !showGallery && selectedStory == None && pending == []
      ensures savedStories == if old(storage.slot).Some? then old(storage.slot).value else []
      ensures Valid()
    {
      this.storage := storage;
      theme, isLoading, story := "", false, "";
      showGallery, selectedStory, pending := false, None, [];
      var stored := storage.slot;
      if stored.Some? {
        savedStories := stored.value;
      } else {
        savedStories := [];
      }
      new;
      storage.slot := Some(savedStories);
    }

    /** The theme input's change handler. */
    method EditTheme(value: string)
      requires Valid()
      modifies this`theme
      ensures Valid()
      ensures theme == value
    {
      theme := value;
    }

    /** The two view toggles: the "Create Story" and "Story Gallery" buttons. */
    method SetShowGallery(show: bool)
      requires Valid()
      modifies this`showGallery
      ensures Valid()
      ensures showGallery == show
    {
      showGallery := show;
    }

    /** handleSubmit: ignored while the theme is empty; otherwise starts loading and
        schedules a generation callback that captures the current theme. */
    method HandleSubmit()
      requires Valid()
      modifies this`isLoading, this`pending
      ensures Valid()
      ensures theme == "" ==> isLoading == old(isLoading) && pending == old(pending)
      ensures theme != "" ==> isLoading && pending == old(pending) + [theme]
    {
      if theme == "" {
        return;
      }
      isLoading := true;
      pending := pending + [theme];
    }

    /** The oldest scheduled generation callback fires: it writes the placeholder
        story for the theme it captured and stops loading. */
    method CompleteGeneration()
      requires Valid()
      requires pending != []
      modifies this`story, this`isLoading, this`pending
      ensures Valid()
      ensures story == GeneratedStory(old(pending[0])) && !isLoading
      ensures pending == old(pending[1..])
      ensures story != "" && Contains(story, old(pending[0]))
      ensures old(pending[0]) == theme ==> Contains(story, theme)
    {
      var captured := pending[0];
      story := GeneratedStory(captured);
      isLoading := false;
      pending := pending[1..];
    }

    /** saveStory: ignored while the story is empty; otherwise puts a new record
        (id and date from the clock) in front of the collection, writes the
        collection through and resets the draft. */
    method SaveStory(id: string, date: string)
      requires Valid()
      modifies this`savedStories, this`story, this`theme, storage`slot
      ensures Valid()
      ensures old(story) == "" ==>
        savedStories == old(savedStories) && story == old(story) && theme == old(theme)
      ensures old(story) != "" ==>
        savedStories == Prepend(Story(id, old(theme), old(story), date), old(savedStories))
        && story == "" && theme == ""
      ensures UniqueIds(old(savedStories)) && !HasId(old(savedStories), id) ==> UniqueIds(savedStories)
    {
      if story == "" {
        return;
      }
      var newStory := Story(id, theme, story, date);
      PrependUniqueIds(newStory, savedStories);
      savedStories := Prepend(newStory, savedStories);
      storage.slot := Some(savedStories);
      ResetStory();
    }

    /** deleteStory: drops every record with the id from the collection, writes the
        collection through, and closes the detail view if it showed that id. */
    method DeleteStory(id: string)
      requires Valid()
      modifies this`savedStories, this`selectedStory, storage`slot
      ensures Valid()
      ensures savedStories == RemoveById(old(savedStories), id)
      ensures selectedStory == if old(IsSelected(id)) then None else old(selectedStory)
      ensures UniqueIds(old(savedStories)) ==> UniqueIds(savedStories)
    {
      if UniqueIds(savedStories) {
        RemoveUniqueIds(savedStories, id);
      }
      savedStories := RemoveById(savedStories, id);
      storage.slot := Some(savedStories);
      if IsSelected(id) {
        selectedStory := None;
      }
    }

    /** resetStory: clears the draft. */
    method ResetStory()
      requires Valid()
      modifies this`story, this`theme
      ensures Valid()
      ensures story == "" && theme == ""
    {
      story := "";
      theme := "";
    }

    /** viewStory: opens a record in the detail view. */
    method ViewStory(s: Story)
      requires Valid()
      modifies this`selectedStory
      ensures Valid()
      ensures selectedStory == Some(s)
    {
      selectedStory := Some(s);
    }

    /** backToGallery: closes the detail view. */
    method BackToGallery()
      requires Valid()
      modifies this`selectedStory
      ensures Valid()
      ensures selectedStory == None
    {
      selectedStory := None;
    }
  }

  /** A session on empty storage: write and save a "Space Adventure" story and a
      "Forest" story, delete the first, then mount the component again on the same
      storage. The second mount sees exactly the Forest record. */
  method SaveDeleteRemount(storage: Storage) returns (first: seq<Story>, remounted: seq<Story>)
    requires storage.slot == None
    modifies storage
    ensures first == [Story("2", "Forest", GeneratedStory("Forest"), "day 2")]
    ensures remounted == first
  {
    var app := new StorytellerApp(storage);
    app.EditTheme("Space Adventure");
    app.HandleSubmit();
    app.CompleteGeneration();
    app.SaveStory("1", "day 1");
    var space := Story("1", "Space Adventure", GeneratedStory("Space Adventure"), "day 1");
    assert app.savedStories == [space];

    app.EditTheme("Forest");
    app.HandleSubmit();
    app.CompleteGeneration();
    app.SaveStory("2", "day 2");
    var forest := Story("2", "Forest", GeneratedStory("Forest"), "day 2");
    assert app.savedStories == [forest, space];

    app.DeleteStory("1");
    assert [forest, space][1..] == [space];
    first := app.savedStories;

    var again := new StorytellerApp(storage);
    remounted := again.savedStories;
  }
}
