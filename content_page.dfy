/** The admin content page: tabs by content type, the item form and the visibility switch. */
module ContentPage {
  import opened Wrappers
  import Seqs
  import opened Store

  function KindIs(tab: ContentKind): ContentItem -> bool {
    (c: ContentItem) => c.kind == tab
  }

  /** The items shown under a tab: those of its type, in store order. */
  function TabItems(s: seq<ContentItem>, tab: ContentKind): seq<ContentItem> {
    Seqs.Filter(s, KindIs(tab))
  }

  lemma TabItemsSpec(s: seq<ContentItem>, tab: ContentKind)
    ensures forall c :: c in TabItems(s, tab) <==> c in s && c.kind == tab
    ensures Seqs.IsSubsequence(TabItems(s, tab), s)
  {
    forall c ensures c in Seqs.Filter(s, KindIs(tab)) <==> c in s && KindIs(tab)(c) {
      Seqs.FilterMembership(s, KindIs(tab), c);
    }
    Seqs.FilterIsSubsequence(s, KindIs(tab));
  }

  /** The three tabs split the content: each item appears under exactly one of them. */
  lemma TabsPartition(s: seq<ContentItem>)
    ensures |TabItems(s, Banner)| + |TabItems(s, Testimonial)| + |TabItems(s, About)| == |s|
  {
    Seqs.FilterCounts3(s, KindIs(Banner), KindIs(Testimonial), KindIs(About));
  }

  // ---------------------------------------------------------------------
  // The form
  // ---------------------------------------------------------------------

  datatype Form = Form(kind: ContentKind, title: string, content: string,
                       imageUrl: string, author: string, active: bool)

  /** `handleAdd`: an empty, visible item of the open tab's type. */
  function BlankForm(tab: ContentKind): (f: Form)
    ensures f.kind == tab && f.active && !CanSave(f)
  {
    Form(tab, "", "", "", "", true)
  }

  /** `handleEdit`: a missing image or author shows as empty text. */
  function EditForm(c: ContentItem): (f: Form)
    ensures f.imageUrl == c.imageUrl.GetOr("") && f.author == c.author.GetOr("")
  {
    Form(c.kind, c.title, c.content, c.imageUrl.GetOr(""), c.author.GetOr(""), c.active)
  }

  predicate CanSave(f: Form) {
    f.title != "" && f.content != ""
  }

  function FormPatch(f: Form): (u: ContentPatch)
    ensures u.id.None?
  {
    ContentPatch(None, Some(f.kind), Some(f.title), Some(f.content),
                 Some(f.imageUrl), Some(f.author), Some(f.active))
  }

  /**
   * Saving an item untouched keeps everything except that a missing image
   * or author comes back as the empty string.
   */
  lemma EditSaveRoundTrip(c: ContentItem)
    ensures MergeContent(c, FormPatch(EditForm(c)))
            == c.(imageUrl := Some(c.imageUrl.GetOr("")), author := Some(c.author.GetOr("")))
    ensures c.imageUrl.Some? && c.author.Some? ==> MergeContent(c, FormPatch(EditForm(c))) == c
  {
  }

  const REQUIRED_TOAST := "Please fill in all required fields"

  /** `handleSave`: refuse a form without title or text; else update the edited item or append one. */
  method HandleSave(s: Store, editing: Option<ContentItem>, f: Form, now: nat) returns (toast: string)
    requires s.Valid()
    modifies s
    ensures s.Valid() && s.listeners == old(s.listeners)
    ensures !CanSave(f) ==>
      toast == REQUIRED_TOAST && s.State() == old(s.State()) && s.calls == old(s.calls)
    ensures CanSave(f) && editing.Some? ==>
      && toast == "Content updated successfully"
      && s.State() == old(s.State()).(content :=
           UpdateWhere(old(s.content), ContentId, editing.value.id, MergeContent, FormPatch(f)))
      && s.calls == old(s.calls) + s.listeners
    ensures CanSave(f) && editing.None? ==>
      && toast == "Content added successfully"
      && s.State() == old(s.State()).(content := old(s.content) +
           [ContentItem(ContentIdFor(f.kind, now), f.kind, f.title, f.content,
                        Some(f.imageUrl), Some(f.author), f.active)])
      && s.calls == old(s.calls) + s.listeners
  {
    if !CanSave(f) {
      return REQUIRED_TOAST;
    }
    if editing.Some? {
      s.UpdateContent(editing.value.id, FormPatch(f));
      toast := "Content updated successfully";
    } else {
      var _ := s.AddContent(NewContent(f.kind, f.title, f.content, Some(f.imageUrl),
                                       Some(f.author), f.active), now);
      toast := "Content added successfully";
    }
  }

  // ---------------------------------------------------------------------
  // Visibility
  // ---------------------------------------------------------------------

  function TogglePatch(c: ContentItem): ContentPatch {
    ContentPatch(None, None, None, None, None, None, Some(!c.active))
  }

  /** The switch flips `active` and nothing else; flipping twice restores the item. */
  lemma ToggleTwice(c: ContentItem)
    ensures MergeContent(c, TogglePatch(c)) == c.(active := !c.active)
    ensures MergeContent(MergeContent(c, TogglePatch(c)), TogglePatch(MergeContent(c, TogglePatch(c)))) == c
  {
  }

  /** The toast names the visibility the item switched to. */
  function ToggleToast(c: ContentItem): (t: string)
    ensures c.active ==> t == "Content hidden successfully"
    ensures !c.active ==> t == "Content shown successfully"
  {
    "Content " + (if c.active then "hidden" else "shown") + " successfully"
  }

  /** `handleToggleActive`: flips one item's visibility. */
  method HandleToggleActive(s: Store, c: ContentItem) returns (toast: string)
    requires s.Valid()
    modifies s
    ensures s.Valid() && s.listeners == old(s.listeners) && s.calls == old(s.calls) + s.listeners
    ensures s.State() == old(s.State()).(content :=
      UpdateWhere(old(s.content), ContentId, c.id, MergeContent, TogglePatch(c)))
    ensures toast == ToggleToast(c)
  {
    s.UpdateContent(c.id, TogglePatch(c));
    toast := ToggleToast(c);
  }

  /** `handleDelete`: deletes the item the confirmation dialog holds, if any. */
  method HandleDelete(s: Store, deleting: Option<ContentItem>)
    requires s.Valid()
    modifies s
    ensures s.Valid() && s.listeners == old(s.listeners)
    ensures deleting.None? ==> s.State() == old(s.State()) && s.calls == old(s.calls)
    ensures deleting.Some? ==>
      && s.State() == old(s.State()).(content := Without(old(s.content), ContentId, deleting.value.id))
      && s.calls == old(s.calls) + s.listeners
  {
    if deleting.Some? {
      s.DeleteContent(deleting.value.id);
    }
  }
}
