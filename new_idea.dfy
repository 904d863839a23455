/** The NewIdea form: its tag editing (`addTag`, `removeTag`, the Enter key) and `handleSave`,
    which prepends the generated idea to the stored list. */
module NewIdea {

  import opened Text
  import opened Seqs
  import opened Json
  import opened Ideas
  import opened Generator

  /** The tag list the form maintains: no tag twice, none empty, none with outer white space. */
  predicate WellFormedTags(tags: seq<string>) {
    && NoDup(tags)
    && forall i :: 0 <= i < |tags| ==> tags[i] != "" && Trimmed(tags[i])
  }

  /** The tag list after `addTag` with the given input box text. */
  function WithTag(tags: seq<string>, input: string): seq<string> {
    var value := Trim(input);
    if value != "" && value !in tags then tags + [value] else tags
  }

  /** The tag list after `removeTag(tag)`. */
  function WithoutTag(tags: seq<string>, tag: string): seq<string> {
    Filter(tags, (t: string) => t != tag)
  }

  /** `addTag` adds the trimmed input exactly when it is non-empty and new, and nothing else. */
  lemma WithTagAddsTrimmedInput(tags: seq<string>, input: string)
    ensures Trim(input) != "" && Trim(input) !in tags ==> WithTag(tags, input) == tags + [Trim(input)]
    ensures Trim(input) == "" || Trim(input) in tags ==> WithTag(tags, input) == tags
  {
  }

  /** After `addTag` the list holds the old tags and, when it is non-empty, the trimmed input. */
  lemma WithTagMembers(tags: seq<string>, input: string)
    ensures forall t :: t in WithTag(tags, input) <==> t in tags || (t == Trim(input) && t != "")
  {
    var value := Trim(input);
    if value != "" && value !in tags {
      AppendMembers(tags, value);
    }
  }

  lemma AppendMembers(tags: seq<string>, value: string)
    ensures forall t :: t in tags + [value] <==> t in tags || t == value
  {
    forall t ensures t in tags + [value] <==> t in tags || t == value {
      assert t in tags + [value] <==> t in tags || t in [value];
    }
  }

  /** `addTag` keeps the tag list well formed: in particular it never creates a duplicate. */
  lemma WithTagKeepsWellFormed(tags: seq<string>, input: string)
    requires WellFormedTags(tags)
    ensures WellFormedTags(WithTag(tags, input))
  {
    var value := Trim(input);
    if value != "" && value !in tags {
      AppendKeepsWellFormed(tags, value);
    }
  }

  lemma AppendKeepsWellFormed(tags: seq<string>, value: string)
    requires WellFormedTags(tags) && value != "" && Trimmed(value) && value !in tags
    ensures WellFormedTags(tags + [value])
  {
    var r := tags + [value];
    forall i | 0 <= i < |r| ensures r[i] != "" && Trimmed(r[i]) {
      if i < |tags| { assert r[i] == tags[i]; }
    }
    forall i, j | 0 <= i < j < |r| ensures r[i] != r[j] {
      assert r[i] == tags[i];
      if j == |tags| { assert r[i] in tags; } else { assert r[j] == tags[j]; }
    }
  }

  /** `removeTag` drops every occurrence of the tag and keeps every other tag, in order. */
  lemma WithoutTagRemovesOnlyThatTag(tags: seq<string>, tag: string)
    ensures tag !in WithoutTag(tags, tag)
    ensures forall t :: t != tag ==> multiset(WithoutTag(tags, tag))[t] == multiset(tags)[t]
    ensures IsSubseq(WithoutTag(tags, tag), tags)
  {
    var keep := (t: string) => t != tag;
    forall t | t != tag ensures multiset(WithoutTag(tags, tag))[t] == multiset(tags)[t] {
      FilterCounts(tags, keep, t);
    }
    FilterIsSubseq(tags, keep);
  }

  /** `removeTag` keeps the tag list well formed. */
  lemma WithoutTagKeepsWellFormed(tags: seq<string>, tag: string)
    requires WellFormedTags(tags)
    ensures WellFormedTags(WithoutTag(tags, tag))
  {
    var r := WithoutTag(tags, tag);
    FilterIsSubseq(tags, (t: string) => t != tag);
    SubseqNoDup(r, tags);
    forall i | 0 <= i < |r| ensures r[i] != "" && Trimmed(r[i]) {
      assert r[i] in tags;
    }
  }

  /** The record `handleSave` prepends. */
  function SavedIdea(id: string, title: string, description: string, tags: seq<string>,
                     createdAt: string, output: string): Idea
  {
    Idea(id, title, description, tags, createdAt, JString(output))
  }

  class NewIdeaForm {
    var title: string
    var description: string
    var tags: seq<string>
    var tagInput: string

    ghost predicate Valid()
      reads this
    {
      WellFormedTags(tags)
    }

    constructor ()
      ensures Valid()
      ensures title == "" && description == "" && tags == [] && tagInput == ""
    {
      title, description, tags, tagInput := "", "", [], "";
    }

    /** The title box's `onChange`. */
    method SetTitle(text: string)
      modifies this
      ensures title == text
      ensures description == old(description) && tags == old(tags) && tagInput == old(tagInput)
    {
      title := text;
    }

    /** The description box's `onChange`. */
    method SetDescription(text: string)
      modifies this
      ensures description == text
      ensures title == old(title) && tags == old(tags) && tagInput == old(tagInput)
    {
      description := text;
    }

    /** The tag input box's `onChange`. */
    method SetTagInput(text: string)
      modifies this
      ensures tagInput == text
      ensures title == old(title) && description == old(description) && tags == old(tags)
    {
      tagInput := text;
    }

    /** `addTag`: the box is cleared only when a tag was added. */
    method AddTag()
      requires Valid()
      modifies this
      ensures Valid()
      ensures tags == WithTag(old(tags), old(tagInput))
      ensures tagInput == if tags == old(tags) then old(tagInput) else ""
      ensures title == old(title) && description == old(description)
    {
      WithTagKeepsWellFormed(tags, tagInput);
      ghost var added := WithTag(tags, tagInput);
      var value := Trim(tagInput);
      if value != "" && value !in tags {
        assert added == tags + [value];
        assert |added| == |tags| + 1;
        tags := tags + [value];
        tagInput := "";
      } else {
        assert added == tags;
      }
    }

    /** `handleKeyPress`: Enter adds the tag; any other key does nothing here. */
    method KeyPress(key: string)
      requires Valid()
      modifies this
      ensures Valid()
      ensures tags == if key == "Enter" then WithTag(old(tags), old(tagInput)) else old(tags)
      ensures tagInput == if tags == old(tags) then old(tagInput) else ""
      ensures title == old(title) && description == old(description)
    {
      if key == "Enter" {
        AddTag();
      }
    }

    /** `removeTag`. */
    method RemoveTag(tag: string)
      requires Valid()
      modifies this
      ensures Valid()
      ensures tags == WithoutTag(old(tags), tag)
      ensures title == old(title) && description == old(description) && tagInput == old(tagInput)
    {
      WithoutTagKeepsWellFormed(tags, tag);
      tags := Filter(tags, (t: string) => t != tag);
    }

    /** `handleSave`: nothing happens while the output is empty; otherwise the new record goes
        in front of all the stored ones, which stay as they were and in their order. `id` and
        `createdAt` are the clock readings `Date.now().toString()` and `toISOString()`. */
    method HandleSave(gen: IdeaGenerator, store: Store, id: string, createdAt: string)
      modifies store
      ensures gen.output == "" ==> store.ideas == old(store.ideas)
      ensures gen.output != "" ==>
        store.ideas == [SavedIdea(id, title, description, tags, createdAt, gen.output)] + old(store.ideas)
    {
      if gen.output == "" {
        return;
      }
      var arr := store.ideas;
      arr := [SavedIdea(id, title, description, tags, createdAt, gen.output)] + arr;
      store.ideas := arr;
    }
  }
}
