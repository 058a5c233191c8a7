/** The list of comments: one item per comment with its avatar, name, an
    owner badge and delete control for the viewer's own comments, the
    confirmation around a delete, and the image preview dialog. */
module CommentListModel {
  import opened Wrappers
  import opened Strings
  import opened Js
  import opened CommentsApi
  import opened CommentsCache

  /** The avatar: the picture when the profile has a non-empty avatar URL,
      otherwise a circle with one letter. */
  datatype Avatar = Picture(src: string, alt: string) | Initial(letter: char)

  /** The letter of an initial avatar: the first character of
      `full_name || email || 'A'`, upper-cased. */
  function InitialLetter(p: Profile): (c: char)
    ensures Filled(p.fullName) ==> c == ToUpperAscii(p.fullName.value[0])
    ensures !Filled(p.fullName) && Filled(p.email) ==> c == ToUpperAscii(p.email.value[0])
    ensures !Filled(p.fullName) && !Filled(p.email) ==> c == 'A'
  {
    var source := Or(p.fullName, Or(p.email, "A"));
    ToUpperAscii(source[0])
  }

  function AvatarOf(p: Profile): (a: Avatar)
    ensures a.Picture? <==> Filled(p.avatarUrl)
    ensures a.Picture? ==> a.src == p.avatarUrl.value && a.alt == Or(p.fullName, "User")
    ensures a.Initial? ==> a.letter == InitialLetter(p)
  {
    if Filled(p.avatarUrl) then Picture(p.avatarUrl.value, Or(p.fullName, "User"))
    else Initial(InitialLetter(p))
  }

  /** The name shown: `full_name || email`, which is missing when both are. */
  function ShownName(p: Profile): (n: Option<string>)
    ensures Filled(p.fullName) ==> n == p.fullName
    ensures !Filled(p.fullName) ==> n == p.email
  {
    if Filled(p.fullName) then p.fullName else p.email
  }

  /** Every comment the route serves has a full name, so the list always
      shows the display name the route computed and the email and `'A'`
      fallbacks of the initial are never used. */
  lemma ServedCommentsShowDisplayName(viewer: Option<AuthUser>, user: AuthUser)
    ensures ShownName(ViewerProfile(viewer)) == ViewerProfile(viewer).fullName
    ensures ShownName(SessionProfile(user)) == Some(DisplayName(user.fullName, user.email))
    ensures InitialLetter(SessionProfile(user)) == ToUpperAscii(DisplayName(user.fullName, user.email)[0])
  {
  }

  /** One rendered comment. */
  datatype Item = Item(key: string, avatar: Avatar, name: Option<string>, content: string,
                       images: seq<string>, ownBadge: bool, deleteControl: bool)

  /** The empty state, or the items in the order of the comments. */
  datatype ListView = EmptyState | Items(items: seq<Item>)

  /** `currentUser?.id === comment.user_id` */
  function IsOwn(currentUser: Option<string>, c: Comment): (own: bool)
    ensures currentUser.None? ==> !own
    ensures own <==> currentUser == Some(c.row.userId)
  {
    currentUser.Some? && currentUser.value == c.row.userId
  }

  function ItemOf(currentUser: Option<string>, c: Comment): Item {
    Item(c.row.id, AvatarOf(c.user), ShownName(c.user), c.row.content, c.row.images,
         IsOwn(currentUser, c), IsOwn(currentUser, c))
  }

  function RenderList(comments: seq<Comment>, currentUser: Option<string>): (v: ListView)
    ensures v.EmptyState? <==> |comments| == 0
    ensures v.Items? ==> |v.items| == |comments|
    ensures v.Items? ==> forall i :: 0 <= i < |comments| ==>
              && v.items[i].key == comments[i].row.id
              && v.items[i].content == comments[i].row.content
              && v.items[i].images == comments[i].row.images
              && (v.items[i].deleteControl <==> currentUser == Some(comments[i].row.userId))
              && v.items[i].ownBadge == v.items[i].deleteControl
  {
    if |comments| == 0 then EmptyState
    else Items(seq(|comments|, i requires 0 <= i < |comments| => ItemOf(currentUser, comments[i])))
  }

  /** Nobody signed in sees no delete control at all. */
  lemma SignedOutSeesNoDelete(comments: seq<Comment>)
    ensures var v := RenderList(comments, None);
            v.Items? ==> forall i :: 0 <= i < |v.items| ==> !v.items[i].deleteControl
  {
  }

  /** The ownership test behind the delete control is the scope of the
      query-parameter DELETE of `/api/comments`: that delete, given the
      item's key by its viewer, removes the row. (The control's own request
      goes to `/api/comments/{id}`, which is not part of this model.) */
  lemma DeleteControlMatchesServerScope(comments: seq<Comment>, viewer: string, i: nat, rows: seq<Row>)
    requires i < |comments|
    requires RenderList(comments, Some(viewer)).Items?
    requires RenderList(comments, Some(viewer)).items[i].deleteControl
    ensures comments[i].row !in DeleteOwned(rows, RenderList(comments, Some(viewer)).items[i].key, viewer)
  {
  }

  /** What a click on Delete ends in. */
  datatype DeleteFlow = Cancelled | Deleted | Alerted(message: string)

  /** `handleDelete`: nothing happens unless the confirmation is accepted;
      a failed delete shows its error (or a fixed message when the error is
      empty), and a delete that throws shows another fixed message. The
      outcome is `None` when the call threw. */
  function HandleDelete(confirmed: bool, outcome: Option<Outcome>): (f: DeleteFlow)
    ensures !confirmed ==> f == Cancelled
    ensures confirmed && outcome == Some(Success) ==> f == Deleted
    ensures confirmed && outcome.Some? && outcome.value.Failure? ==>
              f == Alerted(if outcome.value.error != "" then outcome.value.error else DELETE_FALLBACK)
    ensures confirmed && outcome.None? ==> f == Alerted("Failed to delete comment. Please try again.")
    ensures f.Alerted? ==> f.message != ""
  {
    if !confirmed then Cancelled
    else if outcome.None? then Alerted("Failed to delete comment. Please try again.")
    else if outcome.value.Success? then Deleted
    else Alerted(if outcome.value.error != "" then outcome.value.error else DELETE_FALLBACK)
  }

  /** The image preview: the dialog is open while the selected image is a
      non-empty URL. */
  class ImagePreview {
    var selectedImage: Option<string>

    constructor ()
      ensures selectedImage == None && !IsOpen()
    {
      selectedImage := None;
    }

    /** `open={!!selectedImage}` */
    predicate IsOpen()
      reads this
    {
      Filled(selectedImage)
    }

    /** A click on one of a comment's images selects it; an empty URL is
        selected but does not open the dialog. */
    method ClickImage(c: Comment, index: nat)
      requires index < |c.row.images|
      modifies this
      ensures selectedImage == Some(c.row.images[index])
      ensures IsOpen() <==> c.row.images[index] != ""
    {
      selectedImage := Some(c.row.images[index]);
    }

    /** The dialog's close handler and its close button. */
    method Close()
      modifies this
      ensures selectedImage == None && !IsOpen()
    {
      selectedImage := None;
    }
  }
}
