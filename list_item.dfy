/**
 * The optimised list item: a box behind a visibility gate. While hidden it
 * shows only a grey placeholder; once visible it turns white and renders the
 * lazy image, the title and the description of its item.
 */
module ListItem {
  import opened Optional
  import opened Decimal
  import LazyImage

  const HiddenBackground: string := "#f1f1f1"
  const VisibleBackground: string := "#ffffff"
  const ImageUrlPrefix: string := "https://via.placeholder.com/150?text=Image+"
  const TitlePrefix: string := "Item "

  /** What a visible item renders: the lazy image's props, the title and the description. */
  datatype Content = Content(imageSrc: string, imageAlt: string, title: string, description: string)

  /** The rendered box: its background colour and, when visible, its content. */
  datatype View = View(background: string, content: Option<Content>)

  /** The placeholder image URL of an item: the fixed prefix, then digits that read back as the item. */
  function ImageUrl(item: nat): (url: string)
    ensures |url| > |ImageUrlPrefix| && url[..|ImageUrlPrefix|] == ImageUrlPrefix
    ensures IsDigits(url[|ImageUrlPrefix|..]) && Read(url[|ImageUrlPrefix|..]) == item
  {
    ReadShow(item);
    var url := ImageUrlPrefix + Show(item);
    assert url[|ImageUrlPrefix|..] == Show(item);
    url
  }

  /** The box of `item` given its `isVisible` flag. */
  function Render(item: nat, visible: bool): (v: View)
    ensures v.content.Some? <==> visible
    ensures v.background == if visible then VisibleBackground else HiddenBackground
  {
    if visible then
      View(VisibleBackground,
           Some(Content(ImageUrl(item), "Image " + Show(item), TitlePrefix + Show(item),
                        "This is the content for item " + Show(item) + ".")))
    else
      View(HiddenBackground, None)
  }

  /** A hidden box is the same placeholder for every item: nothing of the item shows. */
  lemma HiddenShowsNothing(a: nat, b: nat)
    ensures Render(a, false) == Render(b, false) == View(HiddenBackground, None)
  {
  }

  /** A visible box's title names its item: after "Item " comes the item's decimal text. */
  lemma TitleNamesItem(item: nat)
    ensures var t := Render(item, true).content.value.title;
            |t| > |TitlePrefix| && t[..|TitlePrefix|] == TitlePrefix
            && IsDigits(t[|TitlePrefix|..]) && Read(t[|TitlePrefix|..]) == item
  {
    var t := Render(item, true).content.value.title;
    assert t[|TitlePrefix|..] == Show(item);
    ReadShow(item);
  }

  /** Visible boxes of different items differ, and so do their image URLs. */
  lemma VisibleIdentifiesItem(a: nat, b: nat)
    ensures Render(a, true) == Render(b, true) <==> a == b
    ensures ImageUrl(a) == ImageUrl(b) <==> a == b
  {
    if ImageUrl(a) == ImageUrl(b) {
      assert ImageUrl(a)[|ImageUrlPrefix|..] == Show(a);
      assert ImageUrl(b)[|ImageUrlPrefix|..] == Show(b);
      ShowInjective(a, b);
    }
  }

  /**
   * The image URL the item's nested lazy image requests: the lazy image
   * exists only inside a visible box, and requests only once its own gate
   * is open.
   */
  function ImageRequest(item: nat, itemVisible: bool, imageVisible: bool): Option<string>
  {
    match Render(item, itemVisible).content
    case None => None
    case Some(c) => LazyImage.Attributes(c.imageSrc, c.imageAlt, imageVisible).src
  }

  /** An item's image is requested exactly when both gates are open, and then it is the item's URL. */
  lemma ImageNeedsBothGates(item: nat, itemVisible: bool, imageVisible: bool)
    ensures ImageRequest(item, itemVisible, imageVisible)
            == if itemVisible && imageVisible then Some(ImageUrl(item)) else None
  {
  }
}
