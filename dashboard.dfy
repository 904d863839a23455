/** The Dashboard: the in-memory idea list loaded from the store, `deleteIdea`, the tag bar
    (`allTags`), the search and tag filter (`filteredIdeas`) and the empty-state message. */
module Dashboard {

  import opened Text
  import opened Seqs
  import opened Ideas
  import opened IdeaCard

  /** The list after `deleteIdea(id)`. */
  function WithoutId(ideas: seq<Idea>, id: string): seq<Idea> {
    Filter(ideas, (i: Idea) => i.id != id)
  }

  /** `deleteIdea` removes every idea with that id, keeps every other idea with its
      multiplicity, and keeps their order. */
  lemma DeleteRemovesExactlyThatId(ideas: seq<Idea>, id: string)
    ensures forall i :: i in WithoutId(ideas, id) <==> i in ideas && i.id != id
    ensures forall i: Idea :: i.id != id ==> multiset(WithoutId(ideas, id))[i] == multiset(ideas)[i]
    ensures IsSubseq(WithoutId(ideas, id), ideas)
  {
    var keep := (i: Idea) => i.id != id;
    forall i: Idea | i.id != id ensures multiset(WithoutId(ideas, id))[i] == multiset(ideas)[i] {
      FilterCounts(ideas, keep, i);
    }
    FilterIsSubseq(ideas, keep);
  }

  /** Deleting an id that no idea has leaves the list as it was. */
  lemma DeleteAbsentIdChangesNothing(ideas: seq<Idea>, id: string)
    requires forall k :: 0 <= k < |ideas| ==> ideas[k].id != id
    ensures WithoutId(ideas, id) == ideas
  {
    FilterKeepsAll(ideas, (i: Idea) => i.id != id);
  }

  /** `ideas.flatMap(idea => idea.tags)`. */
  function FlatTags(ideas: seq<Idea>): seq<string> {
    if ideas == [] then [] else ideas[0].tags + FlatTags(ideas[1..])
  }

  lemma {:induction false} FlatTagsMembers(ideas: seq<Idea>, t: string)
    ensures t in FlatTags(ideas) <==> exists k :: 0 <= k < |ideas| && t in ideas[k].tags
  {
    if ideas != [] {
      FlatTagsMembers(ideas[1..], t);
      if t in FlatTags(ideas[1..]) {
        var k :| 0 <= k < |ideas[1..]| && t in ideas[1..][k].tags;
        assert t in ideas[k + 1].tags;
      }
      if exists k :: 0 <= k < |ideas| && t in ideas[k].tags {
        var k :| 0 <= k < |ideas| && t in ideas[k].tags;
        if k > 0 {
          assert t in ideas[1..][k - 1].tags;
        }
      }
    }
  }

  /** `allTags`: `Array.from(new Set(flatMap(...)))`. */
  function AllTags(ideas: seq<Idea>): seq<string> {
    Distinct(FlatTags(ideas))
  }

  /** Every tag of every idea is in the tag bar exactly once, nothing else is, and the tags
      come in the order of their first appearance. */
  lemma AllTagsOncePerTag(ideas: seq<Idea>)
    ensures forall t :: t in AllTags(ideas) <==> exists k :: 0 <= k < |ideas| && t in ideas[k].tags
    ensures NoDup(AllTags(ideas))
    ensures forall i, j :: 0 <= i < j < |AllTags(ideas)| ==>
      IndexOf(FlatTags(ideas), AllTags(ideas)[i]) < IndexOf(FlatTags(ideas), AllTags(ideas)[j])
  {
    forall t ensures t in AllTags(ideas) <==> exists k :: 0 <= k < |ideas| && t in ideas[k].tags {
      FlatTagsMembers(ideas, t);
    }
    DistinctFirstAppearance(FlatTags(ideas));
  }

  /** The `filteredIdeas` predicate: the lower-cased title or description contains the
      lower-cased query, and the selected tag is "all" or one of the idea's tags. */
  predicate Matches(idea: Idea, query: string, selectedTag: string) {
    && (Contains(Lower(idea.title), Lower(query)) || Contains(Lower(idea.description), Lower(query)))
    && (selectedTag == "all" || selectedTag in idea.tags)
  }

  /** `filteredIdeas`: the matching ideas, in their order. */
  function FilteredIdeas(ideas: seq<Idea>, query: string, selectedTag: string): (r: seq<Idea>)
    ensures forall i :: i in r <==> i in ideas && Matches(i, query, selectedTag)
    ensures IsSubseq(r, ideas)
    ensures forall x :: multiset(r)[x] == if Matches(x, query, selectedTag) then multiset(ideas)[x] else 0
  {
    var keep := (i: Idea) => Matches(i, query, selectedTag);
    FilterIsSubseq(ideas, keep);
    FilterCountsAll(ideas, keep);
    Filter(ideas, keep)
  }

  /** With an empty query and the tag "all", every idea is shown. */
  lemma EmptySearchShowsEverything(ideas: seq<Idea>)
    ensures FilteredIdeas(ideas, "", "all") == ideas
  {
    forall k | 0 <= k < |ideas| ensures Matches(ideas[k], "", "all") {
      ContainsEmpty(Lower(ideas[k].title));
    }
    FilterKeepsAll(ideas, (i: Idea) => Matches(i, "", "all"));
  }

  /** The message shown when no idea passes the filter. */
  datatype EmptyMessage = EmptyMessage(heading: string, hint: string, offersCreate: bool)

  /** The empty state: `None` when some idea is shown. A search or a tag choice is blamed
      ("No ideas found") whenever one is active; otherwise the list is said to be empty. */
  function EmptyState(ideas: seq<Idea>, query: string, selectedTag: string): (r: Option<EmptyMessage>)
    ensures r.Some? <==> FilteredIdeas(ideas, query, selectedTag) == []
    ensures r.Some? ==> (r.value.heading == "No ideas found" <==> query != "" || selectedTag != "all")
    ensures r.Some? ==> (r.value.heading == "No ideas yet" <==> query == "" && selectedTag == "all")
    ensures r.Some? ==> (r.value.offersCreate <==> r.value.heading == "No ideas yet")
  {
    if FilteredIdeas(ideas, query, selectedTag) != [] then None
    else if query != "" || selectedTag != "all" then
      Some(EmptyMessage("No ideas found", "Try adjusting your search or filters", false))
    else
      Some(EmptyMessage("No ideas yet", "Start by creating your first idea", true))
  }

  /** "No ideas yet" is only ever shown when there are no ideas at all. */
  lemma NoIdeasYetMeansNoIdeas(ideas: seq<Idea>, query: string, selectedTag: string)
    requires EmptyState(ideas, query, selectedTag).Some?
    requires EmptyState(ideas, query, selectedTag).value.heading == "No ideas yet"
    ensures ideas == []
  {
    EmptySearchShowsEverything(ideas);
  }

  class DashboardView {
    var ideas: seq<Idea>
    var searchQuery: string
    var selectedTag: string
    const store: Store

    /** Mounting loads the stored list; the search is empty and the tag is "all". */
    constructor Mount(store: Store)
      ensures this.store == store
      ensures ideas == store.ideas && searchQuery == "" && selectedTag == "all"
    {
      this.store := store;
      ideas := store.ideas;
      searchQuery, selectedTag := "", "all";
    }

    function Shown(): seq<Idea>
      reads this
    {
      FilteredIdeas(ideas, searchQuery, selectedTag)
    }

    function TagBar(): seq<string>
      reads this
    {
      AllTags(ideas)
    }

    method SetSearchQuery(query: string)
      modifies this
      ensures searchQuery == query && ideas == old(ideas) && selectedTag == old(selectedTag)
    {
      searchQuery := query;
    }

    method SelectTag(tag: string)
      modifies this
      ensures selectedTag == tag && ideas == old(ideas) && searchQuery == old(searchQuery)
    {
      selectedTag := tag;
    }

    /** `deleteIdea`: the in-memory list loses the ideas with that id, and the store holds
        exactly the new list. */
    method DeleteIdea(id: string)
      modifies this, store
      ensures ideas == WithoutId(old(ideas), id)
      ensures store.ideas == ideas
      ensures searchQuery == old(searchQuery) && selectedTag == old(selectedTag)
    {
      var updated := Filter(ideas, (i: Idea) => i.id != id);
      ideas := updated;
      store.ideas := updated;
    }

    /** A card's delete button: `onDelete` is `deleteIdea`, called with the card's id only
        when the user confirmed. */
    method DeleteFromCard(idea: Idea, confirmed: bool)
      modifies this, store
      ensures confirmed ==> ideas == WithoutId(old(ideas), idea.id) && store.ideas == ideas
      ensures !confirmed ==> ideas == old(ideas) && store.ideas == old(store.ideas)
      ensures searchQuery == old(searchQuery) && selectedTag == old(selectedTag)
    {
      match HandleDelete(idea, confirmed) {
        case Some(id) => DeleteIdea(id);
        case None =>
      }
    }
  }
}
