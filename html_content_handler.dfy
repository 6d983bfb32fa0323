/**
 * `HTMLContentHandler`: a SAX decorator used when blobs are rendered as
 * HTML.  It forwards every event to the decorated handler, rewrites the
 * attributes of `img` elements (embedded image sources point into the
 * `images` directory, and every image gets a fixed width), tracks whether an
 * XHTML `title` element is open, and replaces an empty character event inside
 * an open title by one that makes the downstream handler close the title.
 */
module HtmlContent {
  import opened Wrappers
  import JavaText

  /** Tika's `XHTMLContentHandler.XHTML` namespace. */
  const XHTML := "http://www.w3.org/1999/xhtml"
  const TITLE_TAG := "TITLE"
  const EMBEDDED_PREFIX := "embedded:"
  /** The replacement source prefix: `images` followed by two backslashes. */
  const IMAGES_DIRECTORY := "images\\\\"

  /** One attribute of an `Attributes` list; `uri` is null for the width attribute. */
  datatype Attribute = Attribute(uri: Option<string>, localName: string, qName: string, attrType: string, value: string)

  /** The attribute every forwarded `img` element gets appended. */
  const WIDTH_ATTRIBUTE := Attribute(None, "width", "width", "width", "100px")

  /** The SAX events the decorator handles, as the downstream handler receives them. */
  datatype SaxEvent =
    | StartDocument
    | StartElement(uri: string, localName: string, qName: string, atts: seq<Attribute>)
    | EndElement(uri: string, localName: string, qName: string)
    | Characters(ch: seq<char>, start: int, length: int)

  /**
   * `TITLE_TAG.equalsIgnoreCase(localName) && XHTML.equals(uri)`: the letters
   * of "title" in either case, where Java also lets 'İ' and 'ı' stand for the
   * 'I'.
   */
  function IsXhtmlTitle(uri: string, localName: string): (r: bool)
    ensures r <==> (uri == XHTML && |localName| == 5
                    && localName[0] in "Tt" && localName[1] in "Ii\U{0130}\U{0131}" && localName[2] in "Tt"
                    && localName[3] in "Ll" && localName[4] in "Ee")
  {
    JavaText.EqualsIgnoreCase(TITLE_TAG, localName) && uri == XHTML
  }

  /** What the attribute loop does to one attribute of an `img` element. */
  function RewriteSrc(a: Attribute): (r: Attribute)
    ensures r.(value := a.value) == a
    ensures a.localName != "src" || !JavaText.StartsWith(a.value, EMBEDDED_PREFIX) ==> r == a
    ensures a.localName == "src" && JavaText.StartsWith(a.value, EMBEDDED_PREFIX) ==>
      JavaText.StartsWith(r.value, IMAGES_DIRECTORY)
  {
    if a.localName == "src" && JavaText.StartsWith(a.value, EMBEDDED_PREFIX) then
      JavaText.ReplaceAllLeading(a.value, EMBEDDED_PREFIX, IMAGES_DIRECTORY);
      a.(value := JavaText.ReplaceAll(a.value, EMBEDDED_PREFIX, IMAGES_DIRECTORY))
    else a
  }

  /** "embedded:" cannot overlap the replacement `images\\`, which starts with a letter it lacks. */
  lemma EmbeddedPrefixNoOverlap()
    ensures forall j :: 0 <= j < |EMBEDDED_PREFIX| ==> EMBEDDED_PREFIX[j] != IMAGES_DIRECTORY[0]
    ensures JavaText.NoOverlap(EMBEDDED_PREFIX, IMAGES_DIRECTORY)
  {
    forall p | 0 <= p < |IMAGES_DIRECTORY|
      ensures !JavaText.Agree(IMAGES_DIRECTORY[p..], EMBEDDED_PREFIX)
    {
      if p == 4 {
        assert IMAGES_DIRECTORY[p..][1] != EMBEDDED_PREFIX[1];
      } else {
        assert IMAGES_DIRECTORY[p..][0] != EMBEDDED_PREFIX[0];
      }
    }
  }

  /** Every "embedded:" of an embedded `src` is replaced: none is left anywhere in the new value. */
  lemma RewriteSrcLeavesNoEmbedded(a: Attribute)
    requires a.localName == "src" && JavaText.StartsWith(a.value, EMBEDDED_PREFIX)
    ensures forall p :: !JavaText.OccursAt(RewriteSrc(a).value, EMBEDDED_PREFIX, p)
  {
    EmbeddedPrefixNoOverlap();
    JavaText.ReplaceAllLeavesNoTarget(a.value, EMBEDDED_PREFIX, IMAGES_DIRECTORY);
  }

  /** The attributes an `img` element is forwarded with. */
  function ImgAttributes(atts: seq<Attribute>): (r: seq<Attribute>)
    ensures |r| == |atts| + 1 && r[|atts|] == WIDTH_ATTRIBUTE
    ensures forall i :: 0 <= i < |atts| ==> r[i] == RewriteSrc(atts[i])
  {
    seq(|atts|, i requires 0 <= i < |atts| => RewriteSrc(atts[i])) + [WIDTH_ATTRIBUTE]
  }

  /** The event forwarded for `e` when the title state is `open`. */
  function Forward(e: SaxEvent, open: bool): (out: SaxEvent)
    ensures e.StartElement? ==> out.StartElement? && out.(atts := e.atts) == e
    ensures e.StartElement? && e.localName != "img" ==> out == e
    ensures e.StartElement? && e.localName == "img" ==> out.atts == ImgAttributes(e.atts)
    ensures e.StartDocument? || e.EndElement? ==> out == e
    ensures e.Characters? ==> out.Characters?
    ensures e.Characters? ==> out == (if open && e.length == 0 then Characters([], 0, 1) else e)
  {
    match e
    case StartElement(uri, localName, qName, atts) =>
      if localName == "img" then StartElement(uri, localName, qName, ImgAttributes(atts)) else e
    case Characters(_, _, length) =>
      if open && length == 0 then Characters([], 0, 1) else e
    case _ => e
  }

  /** The title state after `e`, when it was `open` before. */
  function NextOpen(open: bool, e: SaxEvent): (r: bool)
    ensures Toggles(e) ==> (r <==> e.StartElement?)
    ensures !Toggles(e) ==> r == open
  {
    match e
    case StartDocument => false
    case StartElement(uri, localName, _, _) => if IsXhtmlTitle(uri, localName) then true else open
    case EndElement(uri, localName, _) => if IsXhtmlTitle(uri, localName) then false else open
    case Characters(_, _, _) => open
  }

  /** The title state after a stream of events. */
  function StateAfter(events: seq<SaxEvent>, open: bool): bool {
    if events == [] then open
    else NextOpen(StateAfter(events[..|events| - 1], open), events[|events| - 1])
  }

  /** The stream the decorated handler receives for a stream of events. */
  function Decorate(events: seq<SaxEvent>, open: bool): (r: seq<SaxEvent>)
    ensures |r| == |events|
  {
    if events == [] then []
    else
      var init := events[..|events| - 1];
      Decorate(init, open) + [Forward(events[|events| - 1], StateAfter(init, open))]
  }

  /** Every event is forwarded exactly once, in order, transformed by the state before it. */
  lemma {:induction false} DecorateAt(events: seq<SaxEvent>, open: bool, i: int)
    requires 0 <= i < |events|
    ensures Decorate(events, open)[i] == Forward(events[i], StateAfter(events[..i], open))
  {
    var init := events[..|events| - 1];
    if i < |init| {
      DecorateAt(init, open, i);
      assert init[..i] == events[..i];
    } else {
      assert init == events[..i];
    }
  }

  /** Decorating is compositional: the second part starts from the state the first left. */
  lemma {:induction false} DecorateAppend(a: seq<SaxEvent>, b: seq<SaxEvent>, open: bool)
    ensures StateAfter(a + b, open) == StateAfter(b, StateAfter(a, open))
    ensures Decorate(a + b, open) == Decorate(a, open) + Decorate(b, StateAfter(a, open))
  {
    if b == [] {
      assert a + b == a;
    } else {
      var init := b[..|b| - 1];
      DecorateAppend(a, init, open);
      assert (a + b)[..|a + b| - 1] == a + init;
      assert (a + b)[|a + b| - 1] == b[|b| - 1];
    }
  }

  /** What follows a `startDocument` does not depend on anything before it. */
  lemma StartDocumentResets(a: seq<SaxEvent>, b: seq<SaxEvent>, open1: bool, open2: bool)
    ensures Decorate(a + [StartDocument] + b, open1)[|a|..] == Decorate([StartDocument] + b, open2)
    ensures StateAfter(a + [StartDocument] + b, open1) == StateAfter([StartDocument] + b, open2)
  {
    var rest := [StartDocument] + b;
    assert a + [StartDocument] + b == a + rest;
    DecorateAppend(a, rest, open1);
    DecorateAppend([StartDocument], b, StateAfter(a, open1));
    DecorateAppend([StartDocument], b, open2);
    assert [StartDocument][..0] == [];
  }

  /** The events that set or clear the title state. */
  predicate Toggles(e: SaxEvent) {
    e.StartDocument? || ((e.StartElement? || e.EndElement?) && IsXhtmlTitle(e.uri, e.localName))
  }

  /**
   * The title is open exactly when the last event that touches the title
   * state opened an XHTML title, or, when no event touched it, when it was
   * open to begin with.
   */
  lemma {:induction false} TitleOpenAfter(events: seq<SaxEvent>, open: bool)
    ensures StateAfter(events, open) <==>
      (exists i :: 0 <= i < |events| && Toggles(events[i]) && events[i].StartElement?
                   && forall j :: i < j < |events| ==> !Toggles(events[j]))
      || (open && forall j :: 0 <= j < |events| ==> !Toggles(events[j]))
  {
    if events != [] {
      var n := |events| - 1;
      var init := events[..n];
      TitleOpenAfter(init, open);
      assert forall j :: 0 <= j < n ==> init[j] == events[j];
      if Toggles(events[n]) {
        if events[n].StartElement? {
          assert Toggles(events[n]) && events[n].StartElement?;
        }
      }
    }
  }

  /** `org.xml.sax.helpers.AttributesImpl`: a mutable attribute list. */
  class AttributesImpl {
    var list: seq<Attribute>

    /** `new AttributesImpl(atts)`: a copy of the list. */
    constructor (atts: seq<Attribute>)
      ensures list == atts
    {
      list := atts;
    }

    function GetLength(): int
      reads this
    {
      |list|
    }

    function GetLocalName(i: int): string
      reads this
      requires 0 <= i < |list|
    {
      list[i].localName
    }

    function GetValue(i: int): string
      reads this
      requires 0 <= i < |list|
    {
      list[i].value
    }

    /** `setValue(i, value)`: only the value of attribute `i` changes. */
    method SetValue(i: int, value: string)
      requires 0 <= i < |list|
      modifies this
      ensures list == old(list)[i := old(list)[i].(value := value)]
    {
      list := list[i := list[i].(value := value)];
    }

    /** `addAttribute(uri, localName, qName, type, value)`: appended at the end. */
    method AddAttribute(uri: Option<string>, localName: string, qName: string, attrType: string, value: string)
      modifies this
      ensures list == old(list) + [Attribute(uri, localName, qName, attrType, value)]
    {
      list := list + [Attribute(uri, localName, qName, attrType, value)];
    }
  }

  /**
   * The attribute loop of `startElement` for an `img` element: every
   * embedded `src` is pointed into the images directory, in place, and the
   * width attribute is appended.
   */
  method RewriteImgAttributes(attrs: AttributesImpl)
    modifies attrs
    ensures attrs.list == ImgAttributes(old(attrs.list))
  {
    ghost var original := attrs.list;
    var i := 0;
    while i < attrs.GetLength()
      invariant 0 <= i <= |attrs.list| == |original|
      invariant forall k :: 0 <= k < i ==> attrs.list[k] == RewriteSrc(original[k])
      invariant forall k :: i <= k < |attrs.list| ==> attrs.list[k] == original[k]
    {
      if attrs.GetLocalName(i) == "src" {
        var src := attrs.GetValue(i);
        if JavaText.StartsWith(src, EMBEDDED_PREFIX) {
          var newSrc := JavaText.ReplaceAll(src, EMBEDDED_PREFIX, IMAGES_DIRECTORY);
          attrs.SetValue(i, newSrc);
        }
      }
      i := i + 1;
    }
    attrs.AddAttribute(None, "width", "width", "width", "100px");
  }

  /**
   * The decorator.  `forwarded` is what the decorated handler has received;
   * `received` (ghost) is what the decorator was given.  `Valid` ties the two
   * to the stream specification above.
   */
  class HTMLContentHandler {
    var isTitleTagOpen: bool
    var forwarded: seq<SaxEvent>
    ghost var received: seq<SaxEvent>

    ghost predicate Valid()
      reads this
    {
      forwarded == Decorate(received, false) && isTitleTagOpen == StateAfter(received, false)
    }

    /** A new decorator: nothing seen, no title open (the field's default). */
    constructor ()
      ensures Valid() && received == [] && forwarded == [] && !isTitleTagOpen
    {
      isTitleTagOpen := false;
      forwarded := [];
      received := [];
    }

    /** Appends `e` to the received events; `forwarded` is unchanged. */
    ghost method Record(e: SaxEvent)
      requires Valid()
      modifies this
      ensures received == old(received) + [e] && forwarded == old(forwarded)
      ensures isTitleTagOpen == old(isTitleTagOpen)
      ensures Decorate(received, false) == old(forwarded) + [Forward(e, old(isTitleTagOpen))]
      ensures StateAfter(received, false) == NextOpen(old(isTitleTagOpen), e)
    {
      received := received + [e];
      assert received[..|received| - 1] == old(received);
    }

    /** `startDocument()`: forwarded, then the title state is reset. */
    method StartDocument()
      requires Valid()
      modifies this
      ensures Valid() && received == old(received) + [SaxEvent.StartDocument]
      ensures forwarded == old(forwarded) + [SaxEvent.StartDocument] && !isTitleTagOpen
    {
      Record(SaxEvent.StartDocument);
      forwarded := forwarded + [SaxEvent.StartDocument];
      isTitleTagOpen := false;
    }

    /**
     * `startElement(uri, localName, name, origAttrs)`.  An `img` element's
     * attributes are rewritten in place when `origAttrs` is an
     * `AttributesImpl` (the caller sees the change), in a copy otherwise.
     */
    method StartElement(uri: string, localName: string, name: string,
                        origAttrs: AttributesImpl, origIsAttributesImpl: bool)
      requires Valid()
      modifies this, origAttrs
      ensures Valid() && received == old(received) + [SaxEvent.StartElement(uri, localName, name, old(origAttrs.list))]
      ensures forwarded == old(forwarded) + [Forward(SaxEvent.StartElement(uri, localName, name, old(origAttrs.list)), old(isTitleTagOpen))]
      ensures isTitleTagOpen == (IsXhtmlTitle(uri, localName) || old(isTitleTagOpen))
      ensures localName == "img" && origIsAttributesImpl ==> origAttrs.list == ImgAttributes(old(origAttrs.list))
      ensures !(localName == "img" && origIsAttributesImpl) ==> origAttrs.list == old(origAttrs.list)
    {
      var e := SaxEvent.StartElement(uri, localName, name, origAttrs.list);
      Record(e);
      if localName == "img" {
        var attrs: AttributesImpl;
        if origIsAttributesImpl {
          attrs := origAttrs;
        } else {
          attrs := new AttributesImpl(origAttrs.list);
        }
        RewriteImgAttributes(attrs);
        forwarded := forwarded + [SaxEvent.StartElement(uri, localName, name, attrs.list)];
      } else {
        forwarded := forwarded + [e];
      }
      if IsXhtmlTitle(uri, localName) {
        isTitleTagOpen := true;
      }
    }

    /** `endElement(uri, localName, qName)`: forwarded, then an XHTML title closes. */
    method EndElement(uri: string, localName: string, qName: string)
      requires Valid()
      modifies this
      ensures Valid() && received == old(received) + [SaxEvent.EndElement(uri, localName, qName)]
      ensures forwarded == old(forwarded) + [SaxEvent.EndElement(uri, localName, qName)]
      ensures isTitleTagOpen == (!IsXhtmlTitle(uri, localName) && old(isTitleTagOpen))
    {
      var e := SaxEvent.EndElement(uri, localName, qName);
      Record(e);
      forwarded := forwarded + [e];
      if IsXhtmlTitle(uri, localName) {
        isTitleTagOpen := false;
      }
    }

    /**
     * `characters(ch, start, length)`: forwarded unchanged, except that an
     * empty event inside an open title is forwarded as `(new char[0], 0, 1)`;
     * the `ArrayIndexOutOfBoundsException` that may come back is swallowed.
     */
    method Characters(ch: seq<char>, start: int, length: int)
      requires Valid()
      modifies this
      ensures Valid() && received == old(received) + [SaxEvent.Characters(ch, start, length)]
      ensures isTitleTagOpen == old(isTitleTagOpen)
      ensures old(isTitleTagOpen) && length == 0 ==> forwarded == old(forwarded) + [SaxEvent.Characters([], 0, 1)]
      ensures !(old(isTitleTagOpen) && length == 0) ==> forwarded == old(forwarded) + [SaxEvent.Characters(ch, start, length)]
    {
      var e := SaxEvent.Characters(ch, start, length);
      Record(e);
      if isTitleTagOpen && length == 0 {
        forwarded := forwarded + [SaxEvent.Characters([], 0, 1)];
      } else {
        forwarded := forwarded + [e];
      }
    }
  }
}
