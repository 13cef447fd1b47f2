/**
 * The community page of frontend/app/community/page.tsx: the category bar over the posts, the
 * new-post form that refuses a blank title or body, and the consultation booking dialog that
 * remembers which expert it is for.
 */
module Community {
  import opened Wrappers
  import opened Seqs
  import opened Text

  datatype Category = Experience | Question | Tip | Success

  /** The category bar: every post, or one category. */
  datatype CategoryFilter = AllCategories | Only(category: Category)

  datatype Post = Post(id: string, author: string, title: string, content: string,
                       category: Category, likes: nat, replies: nat, liked: bool)

  datatype Expert = Expert(id: string, name: string, specialization: string, available: bool)

  datatype ConsultationSlot = ConsultationSlot(id: string, time: string, available: bool, price: int)

  /** `filteredPosts`. */
  function FilteredPosts(posts: seq<Post>, selected: CategoryFilter): (r: seq<Post>)
    ensures |r| <= |posts|
    ensures selected.Only? ==> forall i :: 0 <= i < |r| ==> r[i].category == selected.category
  {
    if selected == AllCategories then posts
    else Filter(posts, (p: Post) => p.category == selected.category)
  }

  /** "all" shows every post; a category shows exactly its posts, in their original order. */
  lemma FilteredPostsExactly(posts: seq<Post>, selected: CategoryFilter, p: Post)
    ensures selected == AllCategories ==> FilteredPosts(posts, selected) == posts
    ensures selected.Only? ==>
              (p in FilteredPosts(posts, selected) <==> p in posts && p.category == selected.category)
    ensures IsSubsequence(FilteredPosts(posts, selected), posts)
    ensures selected.Only? ==>
              multiset(FilteredPosts(posts, selected))[p]
              == if p.category == selected.category then multiset(posts)[p] else 0
  {
    if selected.Only? {
      FilterMembers(posts, (q: Post) => q.category == selected.category, p);
      FilterMultiset(posts, (q: Post) => q.category == selected.category, p);
      FilterIsSubsequence(posts, (q: Post) => q.category == selected.category);
    } else {
      FilterKeepsAll(posts, (q: Post) => true);
      FilterIsSubsequence(posts, (q: Post) => true);
    }
  }

  /** The Book Consultation button is greyed out for an expert who is not available. */
  predicate ExpertButtonDisabled(e: Expert) {
    !e.available
  }

  /** A time in the booking dialog is greyed out when it is taken. */
  predicate SlotButtonDisabled(s: ConsultationSlot) {
    !s.available
  }

  class CommunityPage {
    var selectedCategory: CategoryFilter
    var showNewPostModal: bool
    var newPostTitle: string
    var newPostContent: string
    var newPostCategory: Category
    var selectedExpert: Option<Expert>
    var showBookingModal: bool

    /** The booking dialog is only ever open for an expert who could be booked. */
    ghost predicate Valid()
      reads this
    {
      (showBookingModal ==> selectedExpert.Some?)
      && (selectedExpert.Some? ==> !ExpertButtonDisabled(selectedExpert.value))
    }

    constructor ()
      ensures Valid()
      ensures selectedCategory == AllCategories && !showNewPostModal
      ensures newPostTitle == "" && newPostContent == "" && newPostCategory == Experience
      ensures selectedExpert == None && !showBookingModal
    {
      selectedCategory := AllCategories;
      showNewPostModal := false;
      newPostTitle, newPostContent, newPostCategory := "", "", Experience;
      selectedExpert, showBookingModal := None, false;
    }

    /** A click on the category bar. */
    method SelectCategory(c: CategoryFilter)
      requires Valid()
      modifies this`selectedCategory
      ensures Valid() && selectedCategory == c
    {
      selectedCategory := c;
    }

    /** The fields of the new-post form. */
    method EditNewPost(title: string, content: string, category: Category)
      requires Valid()
      modifies this`newPostTitle, this`newPostContent, this`newPostCategory
      ensures Valid()
      ensures newPostTitle == title && newPostContent == content && newPostCategory == category
    {
      newPostTitle, newPostContent, newPostCategory := title, content, category;
    }

    method OpenNewPostModal()
      requires Valid()
      modifies this`showNewPostModal
      ensures Valid() && showNewPostModal
    {
      showNewPostModal := true;
    }

    /** The Cancel button of the new-post form. */
    method CloseNewPostModal()
      requires Valid()
      modifies this`showNewPostModal
      ensures Valid() && !showNewPostModal
    {
      showNewPostModal := false;
    }

    /** `handleNewPost`: a post with a blank title or body is ignored; otherwise the title
        and body are cleared and the form closes, keeping the chosen category. */
    method HandleNewPost()
      requires Valid()
      modifies this`newPostTitle, this`newPostContent, this`showNewPostModal
      ensures Valid()
      ensures newPostCategory == old(newPostCategory)
      ensures Trim(old(newPostTitle)) == [] || Trim(old(newPostContent)) == [] ==>
                newPostTitle == old(newPostTitle) && newPostContent == old(newPostContent)
                && showNewPostModal == old(showNewPostModal)
      ensures Trim(old(newPostTitle)) != [] && Trim(old(newPostContent)) != [] ==>
                newPostTitle == "" && newPostContent == "" && !showNewPostModal
    {
      if Trim(newPostTitle) == [] || Trim(newPostContent) == [] {
        return;
      }
      newPostTitle := "";
      newPostContent := "";
      showNewPostModal := false;
    }

    /** `handleBookConsultation`, reachable only through an enabled button. */
    method HandleBookConsultation(e: Expert)
      requires Valid() && !ExpertButtonDisabled(e)
      modifies this`selectedExpert, this`showBookingModal
      ensures Valid() && selectedExpert == Some(e) && showBookingModal
    {
      selectedExpert := Some(e);
      showBookingModal := true;
    }

    /** `confirmBooking`, from an enabled time in the open dialog; it returns the expert the
        booking was for. */
    method ConfirmBooking(slot: ConsultationSlot) returns (expert: Expert)
      requires Valid() && showBookingModal && !SlotButtonDisabled(slot)
      modifies this`selectedExpert, this`showBookingModal
      ensures Valid() && !showBookingModal && selectedExpert == None
      ensures Some(expert) == old(selectedExpert) && expert.available
    {
      expert := selectedExpert.value;
      showBookingModal := false;
      selectedExpert := None;
    }

    /** The Cancel button of the booking dialog closes it and keeps the selection. */
    method CloseBookingModal()
      requires Valid()
      modifies this`showBookingModal
      ensures Valid() && !showBookingModal && selectedExpert == old(selectedExpert)
    {
      showBookingModal := false;
    }
  }
}
