/** How `execute_python` turns the collected lists into its result parts
    (src/pykernel_mcp/server.py:209-266, pykernel_mcp.py:103-180), and
    which sections the HTML view holds (`html_result`,
    src/pykernel_mcp/server.py:82-165; inline in pykernel_mcp.py:142-171).
    Markup, styles and escaping are not modelled: a page is the list of its
    sections with the text each shows. */
module Rendering {
  import opened Wrappers
  import opened Protocol
  import opened Text
  import opened Aggregation

  /** The kernel id's first eight characters and the uptime the result reports. */
  datatype KernelInfo = KernelInfo(idPrefix: string, uptime: int)

  /** The pieces of the images block of the packaged server's page. */
  datatype ImagePiece = ImagesOpen | ImagesLabel | ImgTag(png: string) | ImagesClose

  /** A page: the standalone page's kernel header, the code, the images block,
      the output and errors sections and the success line, in page order. */
  datatype Page = Page(
    header: Option<KernelInfo>,
    code: string,
    imagesBlock: seq<ImagePiece>,
    outputSection: Option<string>,
    errorsSection: Option<string>,
    successLine: bool)

  /** One element of the list `execute_python` returns. */
  datatype Part =
    | Info(info: KernelInfo)
    | Executed(code: string)
    | Image(png: string)
    | Output(text: string)
    | Errors(text: string)
    | Success(text: string)
    | Html(page: Page)

  /** The plain success text; the standalone server adds "(no output)". */
  function SuccessText(v: Variant): string
  {
    match v
    case Packaged => "✓ Code executed successfully"
    case Standalone => "✓ Code executed successfully (no output)"
  }

  function ImgTags(images: seq<string>): (tags: seq<ImagePiece>)
    ensures |tags| == |images|
    ensures forall k :: 0 <= k < |images| ==> tags[k] == ImgTag(images[k])
  {
    if images == [] then [] else [ImgTag(images[0])] + ImgTags(images[1..])
  }

  /** `images_html`: empty without images, else an opening, a label, one
      tag per image and a closing. */
  function ImagesHtml(images: seq<string>): seq<ImagePiece>
  {
    if images == [] then [] else [ImagesOpen, ImagesLabel] + ImgTags(images) + [ImagesClose]
  }

  /** The `+=` loop of `html_result` that builds `images_html`. */
  method RenderImages(images: seq<string>) returns (block: seq<ImagePiece>)
    ensures block == ImagesHtml(images)
  {
    block := [];
    if images != [] {
      block := [ImagesOpen, ImagesLabel];
      for k := 0 to |images|
        invariant block == [ImagesOpen, ImagesLabel] + ImgTags(images[..k])
      {
        assert images[..k + 1] == images[..k] + [images[k]];
        ImgTagsAppend(images[..k], images[k]);
        block := block + [ImgTag(images[k])];
      }
      assert images[..|images|] == images;
      block := block + [ImagesClose];
    }
  }

  lemma {:induction false} ImgTagsAppend(images: seq<string>, png: string)
    ensures ImgTags(images + [png]) == ImgTags(images) + [ImgTag(png)]
  {
    var l := ImgTags(images + [png]);
    var r := ImgTags(images) + [ImgTag(png)];
    assert |l| == |r|;
    forall k | 0 <= k < |l| ensures l[k] == r[k] {
      if k < |images| {
        assert (images + [png])[k] == images[k];
      }
    }
  }

  /** The sections of a page, from the joined output and error texts: the
      output and errors sections when their text is non-empty, the success
      line when both are empty. */
  function Sections(header: Option<KernelInfo>, code: string, outputText: string,
                    errorText: string, imagesBlock: seq<ImagePiece>): Page
  {
    Page(header, code, imagesBlock,
      if outputText != "" then Some(outputText) else None,
      if errorText != "" then Some(errorText) else None,
      outputText == "" && errorText == "")
  }

  /** `html_result(code, error_text, output_text, images)` of the packaged server. */
  method HtmlResult(code: string, errorText: string, outputText: string, images: seq<string>)
    returns (page: Page)
    ensures page == Sections(None, code, outputText, errorText, ImagesHtml(images))
  {
    var block := RenderImages(images);
    page := Sections(None, code, outputText, errorText, block);
  }

  /** `"\n".join(lines)`, also `""` for no lines. */
  function Joined(lines: seq<string>): string
  {
    Join("\n", lines)
  }

  /** The page each server attaches for a collected result. */
  function PageFor(v: Variant, info: KernelInfo, code: string, c: Collected): Page
  {
    match v
    case Packaged => Sections(None, code, Joined(c.outputs), Joined(c.errors), ImagesHtml(c.images))
    case Standalone => Sections(Some(info), code, Joined(c.outputs), Joined(c.errors), [])
  }

  function ImageParts(images: seq<string>): (parts: seq<Part>)
    ensures |parts| == |images|
    ensures forall k :: 0 <= k < |images| ==> parts[k] == Image(images[k])
  {
    if images == [] then [] else [Image(images[0])] + ImageParts(images[1..])
  }

  /** Whether the plain success text is added: nothing at all was collected
      (the standalone server does not look at images). */
  predicate NothingShown(v: Variant, c: Collected)
  {
    c.outputs == [] && c.errors == [] && (v == Standalone || c.images == [])
  }

  /** The list of parts, in the order the source appends them. */
  function Layout(v: Variant, info: KernelInfo, code: string, c: Collected): seq<Part>
  {
    [Info(info), Executed(code)] + ImageSegment(v, c) + OutputSegment(c)
    + ErrorsSegment(c) + SuccessSegment(v, c) + [Html(PageFor(v, info, code, c))]
  }

  function ImageSegment(v: Variant, c: Collected): seq<Part>
  {
    if v == Packaged then ImageParts(c.images) else []
  }

  function OutputSegment(c: Collected): seq<Part>
  {
    if c.outputs != [] then [Output(Joined(c.outputs))] else []
  }

  function ErrorsSegment(c: Collected): seq<Part>
  {
    if c.errors != [] then [Errors(Joined(c.errors))] else []
  }

  function SuccessSegment(v: Variant, c: Collected): seq<Part>
  {
    if NothingShown(v, c) then [Part.Success(SuccessText(v))] else []
  }

  /** The `result_parts.append` sequence of `execute_python`. */
  method AssembleParts(v: Variant, info: KernelInfo, code: string, c: Collected)
    returns (parts: seq<Part>)
    ensures parts == Layout(v, info, code, c)
  {
    parts := [Info(info)];
    parts := parts + [Executed(code)];
    ghost var header := parts;
    assert header == [Info(info), Executed(code)];
    if v == Packaged {
      for k := 0 to |c.images|
        invariant parts == header + ImageParts(c.images[..k])
      {
        ImagePartsAppend(c.images[..k], c.images[k]);
        assert c.images[..k + 1] == c.images[..k] + [c.images[k]];
        parts := parts + [Image(c.images[k])];
      }
      assert c.images[..|c.images|] == c.images;
    }
    ghost var withImages := parts;
    assert withImages == header + ImageSegment(v, c);
    if c.outputs != [] {
      parts := parts + [Output(Joined(c.outputs))];
    }
    ghost var withOutput := parts;
    assert withOutput == withImages + OutputSegment(c);
    if c.errors != [] {
      parts := parts + [Errors(Joined(c.errors))];
    }
    ghost var withErrors := parts;
    assert withErrors == withOutput + ErrorsSegment(c);
    if c.outputs == [] && c.errors == [] && (v == Standalone || c.images == []) {
      parts := parts + [Part.Success(SuccessText(v))];
    }
    ghost var withSuccess := parts;
    assert withSuccess == withErrors + SuccessSegment(v, c);
    var page;
    if v == Packaged {
      page := HtmlResult(code, Joined(c.errors), Joined(c.outputs), c.images);
    } else {
      page := Sections(Some(info), code, Joined(c.outputs), Joined(c.errors), []);
    }
    assert page == PageFor(v, info, code, c);
    parts := parts + [Html(page)];
  }

  lemma {:induction false} ImagePartsAppend(images: seq<string>, png: string)
    ensures ImageParts(images + [png]) == ImageParts(images) + [Image(png)]
  {
    var l := ImageParts(images + [png]);
    var r := ImageParts(images) + [Image(png)];
    assert |l| == |r|;
    forall k | 0 <= k < |l| ensures l[k] == r[k] {
      if k < |images| {
        assert (images + [png])[k] == images[k];
      }
    }
  }

  // ---------------------------------------------------------------------
  // What the layout promises, stated independently of how it is built.

  /** The order of part kinds in a result. */
  function Rank(p: Part): nat
  {
    match p
    case Info(_) => 0
    case Executed(_) => 1
    case Image(_) => 2
    case Output(_) => 3
    case Errors(_) => 4
    case Success(_) => 5
    case Html(_) => 6
  }

  /** `p` may come before `q`: a lower kind, or two images. */
  predicate Before(p: Part, q: Part)
  {
    Rank(p) < Rank(q) || (p.Image? && q.Image?)
  }

  /** Parts are in kind order, and every kind but images appears at most once. */
  ghost predicate Ordered(parts: seq<Part>)
  {
    forall i, j :: 0 <= i < j < |parts| ==> Before(parts[i], parts[j])
  }

  lemma OrderedConcat(a: seq<Part>, b: seq<Part>)
    requires Ordered(a) && Ordered(b)
    requires forall p, q :: p in a && q in b ==> Before(p, q)
    ensures Ordered(a + b)
  {
    forall i, j | 0 <= i < j < |a + b| ensures Before((a + b)[i], (a + b)[j]) {
      if j < |a| {
        assert (a + b)[i] == a[i] && (a + b)[j] == a[j];
      } else if i >= |a| {
        assert (a + b)[i] == b[i - |a|] && (a + b)[j] == b[j - |a|];
      } else {
        assert (a + b)[i] == a[i] && (a + b)[j] == b[j - |a|];
        assert a[i] in a && b[j - |a|] in b;
      }
    }
  }

  /** The PNG payloads of the image parts, in order. */
  function Pngs(parts: seq<Part>): seq<string>
  {
    if parts == [] then []
    else (if parts[0].Image? then [parts[0].png] else []) + Pngs(parts[1..])
  }

  lemma {:induction false} PngsConcat(a: seq<Part>, b: seq<Part>)
    ensures Pngs(a + b) == Pngs(a) + Pngs(b)
    decreases |a|
  {
    if a != [] {
      assert (a + b)[0] == a[0] && (a + b)[1..] == a[1..] + b;
      PngsConcat(a[1..], b);
    } else {
      assert a + b == b;
    }
  }

  lemma {:induction false} PngsOfImageParts(images: seq<string>)
    ensures Pngs(ImageParts(images)) == images
    decreases |images|
  {
    if images != [] {
      var parts := ImageParts(images);
      assert parts[1..] == ImageParts(images[1..]);
      PngsOfImageParts(images[1..]);
    }
  }

  /** Kernel info comes first, the executed code second and the HTML resource last. */
  lemma LayoutEnds(v: Variant, info: KernelInfo, code: string, c: Collected)
    ensures var parts := Layout(v, info, code, c);
      && |parts| >= 3
      && parts[0] == Info(info) && parts[1] == Executed(code)
      && parts[|parts| - 1] == Html(PageFor(v, info, code, c))
  {
  }

  /** The parts come in kind order: info, code, images, output, errors,
      success, HTML, with each kind but images at most once. */
  lemma LayoutOrdered(v: Variant, info: KernelInfo, code: string, c: Collected)
    ensures Ordered(Layout(v, info, code, c))
  {
    var head: seq<Part> := [Info(info), Executed(code)];
    var imgs := ImageSegment(v, c);
    assert forall p :: p in imgs ==> p.Image? by {
      forall p | p in imgs ensures p.Image? {
        var k :| 0 <= k < |imgs| && imgs[k] == p;
      }
    }
    AppendKind(head, imgs, 2);
    var a := head + imgs;
    AppendKind(a, OutputSegment(c), 3);
    a := a + OutputSegment(c);
    AppendKind(a, ErrorsSegment(c), 4);
    a := a + ErrorsSegment(c);
    AppendKind(a, SuccessSegment(v, c), 5);
    a := a + SuccessSegment(v, c);
    AppendKind(a, [Html(PageFor(v, info, code, c))], 6);
  }

  /** Appending parts of one kind `r` above all kinds so far keeps the order. */
  lemma AppendKind(a: seq<Part>, b: seq<Part>, r: nat)
    requires Ordered(a) && forall p :: p in a ==> Rank(p) < r
    requires forall q :: q in b ==> Rank(q) == r
    requires r != 2 ==> |b| <= 1
    ensures Ordered(a + b) && forall p :: p in a + b ==> Rank(p) <= r
  {
    assert Ordered(b) by {
      forall i, j | 0 <= i < j < |b| ensures Before(b[i], b[j]) {
        assert b[i] in b && b[j] in b;
      }
    }
    OrderedConcat(a, b);
  }

  /** One image resource per image the packaged server collected, in order;
      none from the standalone server. */
  lemma LayoutImages(v: Variant, info: KernelInfo, code: string, c: Collected)
    ensures Pngs(Layout(v, info, code, c)) == (if v == Packaged then c.images else [])
  {
    var head: seq<Part> := [Info(info), Executed(code)];
    var imgs := ImageSegment(v, c);
    var outs := OutputSegment(c);
    var errs := ErrorsSegment(c);
    var succ := SuccessSegment(v, c);
    var html: seq<Part> := [Html(PageFor(v, info, code, c))];
    PngsOfImageParts(c.images);
    PngsConcat(head, imgs);
    PngsConcat(head + imgs, outs);
    PngsConcat(head + imgs + outs, errs);
    PngsConcat(head + imgs + outs + errs, succ);
    PngsConcat(head + imgs + outs + errs + succ, html);
  }

  /** The parts a layout can hold. */
  lemma InLayout(v: Variant, info: KernelInfo, code: string, c: Collected, p: Part)
    ensures p in Layout(v, info, code, c) <==>
      || p == Info(info) || p == Executed(code)
      || p in ImageSegment(v, c) || p in OutputSegment(c) || p in ErrorsSegment(c)
      || p in SuccessSegment(v, c) || p == Html(PageFor(v, info, code, c))
  {
  }

  /** The output part appears exactly when there are outputs, holding their
      newline join; the errors part likewise; the success text exactly
      when nothing was collected. */
  lemma LayoutPresence(v: Variant, info: KernelInfo, code: string, c: Collected)
    ensures var parts := Layout(v, info, code, c);
      && (Output(Joined(c.outputs)) in parts <==> c.outputs != [])
      && (forall p :: p in parts && p.Output? ==> p == Output(Joined(c.outputs)))
      && (Errors(Joined(c.errors)) in parts <==> c.errors != [])
      && (forall p :: p in parts && p.Errors? ==> p == Errors(Joined(c.errors)))
      && (Part.Success(SuccessText(v)) in parts <==> NothingShown(v, c))
      && (forall p :: p in parts && p.Success? ==> p == Part.Success(SuccessText(v)))
  {
    var imgs := ImageSegment(v, c);
    assert forall p :: p in imgs ==> p.Image? by {
      forall p | p in imgs ensures p.Image? {
        var k :| 0 <= k < |imgs| && imgs[k] == p;
      }
    }
    InLayout(v, info, code, c, Output(Joined(c.outputs)));
    InLayout(v, info, code, c, Errors(Joined(c.errors)));
    InLayout(v, info, code, c, Part.Success(SuccessText(v)));
    forall p | p in Layout(v, info, code, c)
      ensures p.Output? ==> p == Output(Joined(c.outputs))
      ensures p.Errors? ==> p == Errors(Joined(c.errors))
      ensures p.Success? ==> p == Part.Success(SuccessText(v))
    {
      InLayout(v, info, code, c, p);
    }
  }

  /** The payloads of the image tags of a block, in order. */
  function TagPngs(block: seq<ImagePiece>): seq<string>
  {
    if block == [] then []
    else (if block[0].ImgTag? then [block[0].png] else []) + TagPngs(block[1..])
  }

  lemma {:induction false} TagPngsOfImagesHtml(images: seq<string>)
    ensures TagPngs(ImagesHtml(images)) == images
  {
    if images != [] {
      var tags := ImgTags(images);
      TagPngsOfImgTags(images);
      var block := [ImagesOpen, ImagesLabel] + tags + [ImagesClose];
      assert block[1..][1..] == tags + [ImagesClose];
      TagPngsConcat(tags, [ImagesClose]);
    }
  }

  lemma {:induction false} TagPngsOfImgTags(images: seq<string>)
    ensures TagPngs(ImgTags(images)) == images
    decreases |images|
  {
    if images != [] {
      assert ImgTags(images)[1..] == ImgTags(images[1..]);
      TagPngsOfImgTags(images[1..]);
    }
  }

  lemma {:induction false} TagPngsConcat(a: seq<ImagePiece>, b: seq<ImagePiece>)
    ensures TagPngs(a + b) == TagPngs(a) + TagPngs(b)
    decreases |a|
  {
    if a != [] {
      assert (a + b)[0] == a[0] && (a + b)[1..] == a[1..] + b;
      TagPngsConcat(a[1..], b);
    } else {
      assert a + b == b;
    }
  }

  /** The page's sections: the output section exactly when the joined
      output is non-empty (so a single empty output shows none), the errors
      section likewise, the success line exactly when both joined texts are
      empty whatever the images, an images block exactly when the packaged
      server collected images, holding their tags in order, and the kernel
      header only on the standalone page. */
  lemma PageSections(v: Variant, info: KernelInfo, code: string, c: Collected)
    ensures var page := PageFor(v, info, code, c);
      && page.code == code
      && page.header == (if v == Standalone then Some(info) else None)
      && (page.outputSection.Some? <==> !Blank(c.outputs))
      && (page.outputSection.Some? ==> page.outputSection.value == Joined(c.outputs))
      && (page.errorsSection.Some? <==> !Blank(c.errors))
      && (page.errorsSection.Some? ==> page.errorsSection.value == Joined(c.errors))
      && (page.successLine <==> Blank(c.outputs) && Blank(c.errors))
      && (page.imagesBlock == [] <==> v == Standalone || c.images == [])
      && TagPngs(page.imagesBlock) == (if v == Packaged then c.images else [])
  {
    JoinEmptyIff("\n", c.outputs);
    JoinEmptyIff("\n", c.errors);
    TagPngsOfImagesHtml(c.images);
  }

  /** The text parts and the page can disagree: one empty output line gives
      an Output part, while the page shows no output section but the
      success line. */
  lemma BlankOutputShownAsSuccess(v: Variant, info: KernelInfo, code: string, c: Collected)
    requires c.outputs == [""] && c.errors == []
    ensures Output("") in Layout(v, info, code, c)
    ensures PageFor(v, info, code, c).successLine
    ensures PageFor(v, info, code, c).outputSection == None
  {
    LayoutPresence(v, info, code, c);
  }
}
