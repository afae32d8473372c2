# Magical AI Storyteller: the story-collection state machine

The storyteller is a single React component, `StorytellerApp`. The user types a
theme and submits it. After a delay a timer fills in a placeholder story that
contains the theme. The user can save that story into a collection kept newest
first, or discard it. The user can browse the saved stories, open one and delete
saved records by id. The collection is loaded from the browser's local storage
when the component mounts. It is written back in full whenever it changes.

This project models that state and its handlers in Dafny:

- `stories.dfy`, module `Stories`: the values.
  - The `Story` record `{id, theme, content, date}`.
  - The two list updates the handlers apply: `Prepend` (the new record goes in
    front) and `RemoveById` (keep the records whose id differs).
  - The placeholder text of the generation callback, `GeneratedStory`, and its
    inverse `ThemeOf`.
  - Lemmas about all of these.
- `storyteller.dfy`, module `Storyteller`:
  - A `Storage` class. It is the one local-storage key `"savedStories"`, an
    optional list of records.
  - The `StorytellerApp` class. It has the component's fields (`theme`,
    `isLoading`, `story`, `savedStories`, `showGallery`, `selectedStory`), the
    timers the submit handler scheduled (`pending`) and the storage it is mounted
    on.
  - One method per handler. Each method's field-level `modifies` frame says which
    fields the handler may change. Its `ensures` says what the new values are.
  - Every method keeps the write-through invariant `Valid()`: the storage slot
    holds exactly the saved collection.

The clock (`Date.now()`, `toLocaleDateString()`) is replaced by the `id` and `date`
parameters of `SaveStory`. The source's timer (`setTimeout` with 2000 ms) is split
into two steps. `HandleSubmit` schedules it by recording the theme its closure
captures. `CompleteGeneration` fires the oldest one. All timers have the same
delay, so they fire in the order they were scheduled.

A malformed stored value makes `JSON.parse` at `app/page.tsx:30` throw. The
model has no recovery path: its slot holds either nothing or a well-formed list.

Ids are millisecond timestamps (`app/page.tsx:63`), so two saves in the same
millisecond get the same id. The model therefore states uniqueness only
conditionally. If the ids were unique and the caller supplies a fresh id, they
stay unique. Deleting keeps them unique.

## Model

| member | source | states |
|---|---|---|
| `Stories.Prepend` | magical-ai-storyteller/app/page.tsx:69 | The list grows by exactly one: the new record is first and the rest is the old list, unchanged and in order |
| `Stories.RemoveById` | magical-ai-storyteller/app/page.tsx:74 | A record is in the result exactly when it is in the old list and its id differs from the deleted id; the list never grows |
| `Stories.RemoveAbsent` | magical-ai-storyteller/app/page.tsx:74 | Deleting an id that no record has leaves the list unchanged |
| `Stories.RemoveLeavesNoMatch` | magical-ai-storyteller/app/page.tsx:74 | After a delete, no record has the deleted id |
| `Stories.RemoveIdempotent` | magical-ai-storyteller/app/page.tsx:74 | A second delete of the same id changes nothing |
| `Stories.RemoveAppend` | magical-ai-storyteller/app/page.tsx:74 | Removal decides each record on its own: removing from a concatenation is the concatenation of the removals |
| `Stories.RemoveIsSubsequence` | magical-ai-storyteller/app/page.tsx:74 | The kept records appear in their original order |
| `Stories.RemoveMultiplicity` | magical-ai-storyteller/app/page.tsx:74 | Each record with a different id is kept as many times as it occurs; records with the id are all dropped |
| `Stories.RemoveCommutes` | magical-ai-storyteller/app/page.tsx:74 | Two deletes give the same list in either order |
| `Stories.RemoveUniqueIds` | magical-ai-storyteller/app/page.tsx:74 | Deleting keeps ids unique |
| `Stories.RemovePresentShrinksByOne` | magical-ai-storyteller/app/page.tsx:74 | When ids are unique, deleting an id that is present removes exactly one record |
| `Stories.PrependNewestFirst` | magical-ai-storyteller/app/page.tsx:69 | Saving adds exactly one record: the new record is first, and each old record moves back by one place in the same order |
| `Stories.PrependTwice` | magical-ai-storyteller/app/page.tsx:62-69 | Saving A and then B puts B before A, followed by the older records |
| `Stories.PrependUniqueIds` | magical-ai-storyteller/app/page.tsx:62-69 | Ids stay unique after a save if and only if they were unique before and the new id is fresh |
| `Stories.RemoveAfterPrepend` | magical-ai-storyteller/app/page.tsx:62-74 | Deleting a record saved under a fresh id gives back the collection as it was before the save |
| `Stories.RemoveAfterPrependOther` | magical-ai-storyteller/app/page.tsx:62-74 | Deleting a different id keeps the newest record in front of what remains |
| `Stories.GeneratedStory` | magical-ai-storyteller/app/page.tsx:47-52 | The generated story is never empty and contains the theme |
| `Stories.ThemeOfGenerated` | magical-ai-storyteller/app/page.tsx:47-52 | The theme can be read back from the generated story, so different themes give different stories |
| `Storyteller.StorytellerApp.constructor` | magical-ai-storyteller/app/page.tsx:12-37 | On mount the draft is empty, nothing is loading, the create view is shown and no record is open. A present storage slot becomes the collection and an absent slot gives an empty one. Afterwards the slot holds the collection |
| `Storyteller.StorytellerApp.EditTheme` | magical-ai-storyteller/app/page.tsx:149 | Typing sets the theme and changes nothing else |
| `Storyteller.StorytellerApp.SetShowGallery` | magical-ai-storyteller/app/page.tsx:115-122 | The view toggles set which view is shown and change nothing else |
| `Storyteller.StorytellerApp.HandleSubmit` | magical-ai-storyteller/app/page.tsx:39-44 | With an empty theme nothing changes. Otherwise loading starts and a callback is scheduled for the current theme. The collection and the storage are untouched |
| `Storyteller.StorytellerApp.CompleteGeneration` | magical-ai-storyteller/app/page.tsx:46-56 | The callback writes a non-empty story that contains the theme it captured (the current theme when that is unchanged) and stops loading; the collection is untouched |
| `Storyteller.StorytellerApp.SaveStory` | magical-ai-storyteller/app/page.tsx:59-71 | With an empty story nothing changes. Otherwise the collection becomes the new record (current theme, current story, given id and date) followed by the old collection, the slot holds it, and story and theme become empty. A fresh id keeps ids unique |
| `Storyteller.StorytellerApp.DeleteStory` | magical-ai-storyteller/app/page.tsx:73-78 | The collection keeps exactly the records with a different id and the slot holds it. The open record is closed if and only if its id is the deleted id. Unique ids stay unique |
| `Storyteller.StorytellerApp.ResetStory` | magical-ai-storyteller/app/page.tsx:80-83 | Story and theme become empty and nothing else changes |
| `Storyteller.StorytellerApp.ViewStory` | magical-ai-storyteller/app/page.tsx:85-87 | The given record is open and nothing else changes |
| `Storyteller.StorytellerApp.BackToGallery` | magical-ai-storyteller/app/page.tsx:89-91 | No record is open and nothing else changes |
| `Storyteller.SaveDeleteRemount` | magical-ai-storyteller/app/page.tsx:27-91 | Start on empty storage. Save a "Space Adventure" story, then a "Forest" story, then delete the first. The collection is the Forest record alone, and mounting again on the same storage gives the same collection |

## Left out

- Rendering, styling, icons, animations and the "Play Audio Narration" buttons (`app/page.tsx:93-315`). They only present the state.
- The real timing of `setTimeout`, React's batching of state updates and its scheduling of effects. Each handler and each timer callback is one atomic step.
- The mount-time write of `[]` that the persist effect makes before the loaded collection is rendered. The slot ends up holding the collection either way, and the constructor states that end state.
- `localStorage`, `JSON.stringify` and `JSON.parse`. The slot holds a list of records or nothing. A stored empty string, which the source treats as absent, is the model's `None`. A malformed stored value, which makes `JSON.parse` throw, has no counterpart.
- `Date.now()` and `toLocaleDateString()`. They become the `id` and `date` parameters of `SaveStory`.
- The disabled state of the input and of the submit button while loading (`app/page.tsx:151, 157`). The model's handlers accept calls in every state, as the source's handlers do.
- A failing `setItem` (`app/page.tsx:36`), for example when the storage quota is exceeded, is not modelled. Every write succeeds, and `Valid()` relies on that.
- CompleteGeneration: says that the story contains the theme captured when the callback was scheduled. It says the story contains the current theme only when the theme has not changed since. In the UI the theme input is disabled while loading, so the two are normally the same.
- SaveStory: does not ensure that ids are unique, because the source's millisecond timestamps do not guarantee it. It only keeps unique ids unique when the caller supplies a fresh id.
- `magical-ai-storyteller/backend/main.py` is not part of this model. It is an HTTP endpoint that the UI never calls.
