/**
 * The HTML document head: title, description, meta tags grouped by
 * attribute, Open Graph properties, links keyed by href, scripts for the
 * head or the end of the body, and inline styles, rendered line by line.
 * The title and language come from the configuration; here they are the
 * constructor's arguments.
 */
module Document {
  import opened Php
  import AssetManager

  /** A `<link>`: its relation and extra attributes; the href is its key. */
  datatype Link = Link(rel: string, attributes: seq<(string, string)>)

  /** A script added to the document: by URI, or inline with its content. */
  datatype DocScript =
    | External(src: string, attributes: seq<(string, string)>)
    | Inline(content: string, attributes: seq<(string, string)>)

  /** What `getMeta` and `getOG` return: the whole array, or one entry (or null). */
  datatype Found<A> = Whole(all: A) | Entry(value: Option<string>)

  const FaviconType := [("type", "image/x-icon")]

  const AddStylesheetTypeError := "Newtron\\Core\\Document\\Document::addStylesheet(): Return value must be of type Newtron\\Core\\Document\\Document, none returned"

  // ---------------------------------------------------------------------
  // Meta and Open Graph arrays
  // ---------------------------------------------------------------------

  /** `$meta[$attribute][$name] = $content`: the group is created when missing. */
  function MetaPut(meta: seq<(string, seq<(string, string)>)>, attribute: string, name: string, content: string)
    : seq<(string, seq<(string, string)>)>
  {
    var group := Lookup(meta, attribute);
    Put(meta, attribute, Put(if group.Some? then group.value else [], name, content))
  }

  /** `$meta[$attribute][$name] ?? null`. */
  function MetaGet(meta: seq<(string, seq<(string, string)>)>, attribute: string, name: string): Option<string> {
    var group := Lookup(meta, attribute);
    if group.Some? then Lookup(group.value, name) else None
  }

  /** A meta tag set is read back under the same attribute and name, and every other tag is unchanged. */
  lemma MetaGetPut(meta: seq<(string, seq<(string, string)>)>, attribute: string, name: string, content: string, a: string, n: string)
    ensures MetaGet(MetaPut(meta, attribute, name, content), a, n) ==
      if a == attribute && n == name then Some(content) else MetaGet(meta, a, n)
  {
  }

  /** The key an Open Graph property is stored under: 'og:' is prefixed when absent. */
  function OgKey(property: string): (k: string)
    ensures StartsWith(k, "og:")
    ensures StartsWith(property, "og:") ==> k == property
  {
    if StartsWith(property, "og:") then property else "og:" + property
  }

  /** 'x' and 'og:x' name the same property, unless 'x' itself starts with 'og:'. */
  lemma OgKeySameEntry(x: string)
    requires !StartsWith(x, "og:")
    ensures OgKey(x) == OgKey("og:" + x) == "og:" + x
  {
    assert ("og:" + x)[..3] == "og:";
  }

  // ---------------------------------------------------------------------
  // Rendering
  // ---------------------------------------------------------------------

  /** One `name="value"` pair, with no escaping. */
  function AttrPair(p: (string, string)): string {
    p.0 + "=\"" + p.1 + "\""
  }

  function AttrPairs(attributes: seq<(string, string)>): (r: seq<string>)
    ensures |r| == |attributes| && forall i :: 0 <= i < |r| ==> r[i] == AttrPair(attributes[i])
  {
    seq(|attributes|, i requires 0 <= i < |attributes| => AttrPair(attributes[i]))
  }

  /** What `implodeAttributes` gives: the pairs in order, joined by single spaces. */
  function AttributeString(attributes: seq<(string, string)>): string {
    Join(AttrPairs(attributes), " ")
  }

  /** When no name or value holds a space, splitting the attribute string at spaces gives the pairs back. */
  lemma AttributeStringSplits(attributes: seq<(string, string)>)
    requires |attributes| >= 1
    requires forall i :: 0 <= i < |attributes| ==> ' ' !in attributes[i].0 && ' ' !in attributes[i].1
    ensures Split(AttributeString(attributes), ' ') == AttrPairs(attributes)
  {
    var ps := AttrPairs(attributes);
    forall i | 0 <= i < |ps| ensures ' ' !in ps[i] {
      var p := attributes[i];
      assert ps[i] == p.0 + "=\"" + p.1 + "\"";
    }
    SplitJoin(ps, ' ');
  }

  /** The concatenation of `line` over `items`, in order. */
  function ConcatMap<T>(items: seq<T>, line: T -> string): string
    decreases |items|
  {
    if items == [] then "" else ConcatMap(items[..|items| - 1], line) + line(items[|items| - 1])
  }

  function TitleLine(title: string): string {
    "<title>" + title + "</title>\n"
  }

  function DescriptionLine(description: string): string {
    "<meta name=\"description\" content=\"" + description + "\">\n"
  }

  function MetaLine(attribute: string, p: (string, string)): string {
    "<meta " + attribute + "=\"" + p.0 + "\" content=\"" + p.1 + "\">\n"
  }

  /** The lines for one attribute's meta tags. */
  function MetaGroupHtml(attribute: string, names: seq<(string, string)>): string
    decreases |names|
  {
    if names == [] then "" else MetaGroupHtml(attribute, names[..|names| - 1]) + MetaLine(attribute, names[|names| - 1])
  }

  function MetaGroup(g: (string, seq<(string, string)>)): string {
    MetaGroupHtml(g.0, g.1)
  }

  function OgLine(p: (string, string)): string {
    "<meta property=\"" + p.0 + "\" content=\"" + p.1 + "\">\n"
  }

  function StylesheetLine(p: (string, AssetManager.Stylesheet)): string {
    "<link href=\"" + p.1.href + "\" rel=\"stylesheet\">\n"
  }

  function LinkLine(p: (string, Link)): string {
    "<link href=\"" + p.0 + "\" rel=\"" + p.1.rel + "\" " + AttributeString(p.1.attributes) + ">\n"
  }

  function AssetScriptLine(p: (string, AssetManager.Script)): string {
    "<script src=\"" + p.1.src + "\" " + AttributeString(p.1.attributes) + "></script>\n"
  }

  function ScriptLine(s: DocScript): string {
    match s
    case Inline(content, attributes) => "<script " + AttributeString(attributes) + ">" + content + "</script>\n"
    case External(src, attributes) => "<script src=\"" + src + "\" " + AttributeString(attributes) + "></script>\n"
  }

  function StyleLine(content: string): string {
    "<style>" + content + "</style>\n"
  }

  /** The head as `renderHead` writes it, section by section. */
  function HeadHtml(title: string, description: string, meta: seq<(string, seq<(string, string)>)>,
                    og: seq<(string, string)>, stylesheets: seq<(string, AssetManager.Stylesheet)>,
                    links: seq<(string, Link)>, assetScripts: seq<(string, AssetManager.Script)>,
                    headScripts: seq<DocScript>, inlineStyles: seq<string>): string
  {
    TitleLine(title) + DescriptionLine(description) + ConcatMap(meta, MetaGroup) + ConcatMap(og, OgLine)
    + ConcatMap(stylesheets, StylesheetLine) + ConcatMap(links, LinkLine)
    + ConcatMap(assetScripts, AssetScriptLine) + ConcatMap(headScripts, ScriptLine)
    + ConcatMap(inlineStyles, StyleLine)
  }

  /** Appending each item's line in order: the loops of `renderHead` and `renderBodyScripts`. */
  method AppendEach<T>(html: string, items: seq<T>, line: T -> string) returns (r: string)
    ensures r == html + ConcatMap(items, line)
  {
    r := html;
    var i := 0;
    while i < |items|
      invariant 0 <= i <= |items|
      invariant r == html + ConcatMap(items[..i], line)
    {
      assert items[..i + 1][..i] == items[..i];
      AppendAssoc(html, ConcatMap(items[..i], line), line(items[i]));
      r := r + line(items[i]);
      i := i + 1;
    }
    assert items[..i] == items;
  }

  /** The inner loop over one attribute's meta tags. */
  method AppendMetaGroup(html: string, attribute: string, names: seq<(string, string)>) returns (r: string)
    ensures r == html + MetaGroupHtml(attribute, names)
  {
    r := html;
    var i := 0;
    while i < |names|
      invariant 0 <= i <= |names|
      invariant r == html + MetaGroupHtml(attribute, names[..i])
    {
      assert names[..i + 1][..i] == names[..i];
      AppendAssoc(html, MetaGroupHtml(attribute, names[..i]), MetaLine(attribute, names[i]));
      r := r + MetaLine(attribute, names[i]);
      i := i + 1;
    }
    assert names[..i] == names;
  }

  /** The nested loops over the meta array: per attribute, per name. */
  method AppendMeta(html: string, meta: seq<(string, seq<(string, string)>)>) returns (r: string)
    ensures r == html + ConcatMap(meta, MetaGroup)
  {
    r := html;
    var i := 0;
    while i < |meta|
      invariant 0 <= i <= |meta|
      invariant r == html + ConcatMap(meta[..i], MetaGroup)
    {
      assert meta[..i + 1][..i] == meta[..i];
      AppendAssoc(html, ConcatMap(meta[..i], MetaGroup), MetaGroup(meta[i]));
      r := AppendMetaGroup(r, meta[i].0, meta[i].1);
      i := i + 1;
    }
    assert meta[..i] == meta;
  }

  class Document {
    const assets: AssetManager.AssetManager
    var title: string
    var description: string
    var lang: string
    var meta: seq<(string, seq<(string, string)>)>
    var og: seq<(string, string)>
    var links: seq<(string, Link)>
    var headScripts: seq<DocScript>
    var postBodyScripts: seq<DocScript>
    var inlineStyles: seq<string>

    /** A new document: an empty description and the '/favicon.ico' icon link. */
    constructor(assets: AssetManager.AssetManager, title: string, lang: string)
      ensures this.assets == assets && this.title == title && this.lang == lang
      ensures description == "" && meta == [] && og == []
      ensures links == [("/favicon.ico", Link("icon", FaviconType))]
      ensures headScripts == [] && postBodyScripts == [] && inlineStyles == []
    {
      this.assets := assets;
      this.title := title;
      this.lang := lang;
      description := "";
      meta, og, headScripts, postBodyScripts, inlineStyles := [], [], [], [], [];
      links := Put([], "/favicon.ico", Link("icon", FaviconType));
    }

    method SetTitle(t: string)
      modifies this`title
      ensures title == t
    {
      title := t;
    }

    method SetDescription(d: string)
      modifies this`description
      ensures description == d
    {
      description := d;
    }

    method SetLang(l: string)
      modifies this`lang
      ensures lang == l
    {
      lang := l;
    }

    /** `getMeta`: the whole array for a falsy name, else the tag under the attribute, or null. */
    function GetMeta(name: Option<string>, attribute: string := "name"): (r: Found<seq<(string, seq<(string, string)>)>>)
      reads this
      ensures name.None? || Falsy(name.value) ==> r == Whole(meta)
      ensures name.Some? && !Falsy(name.value) ==> r == Entry(MetaGet(meta, attribute, name.value))
    {
      if name.None? || Falsy(name.value) then Whole(meta) else Entry(MetaGet(meta, attribute, name.value))
    }

    /** `setMeta`: store the content under the attribute and name. */
    method SetMeta(name: string, content: string, attribute: string := "name")
      modifies this`meta
      ensures meta == MetaPut(old(meta), attribute, name, content)
      ensures MetaGet(meta, attribute, name) == Some(content)
    {
      meta := MetaPut(meta, attribute, name, content);
    }

    /** `getOG`: the whole array for a falsy property, else the entry under its 'og:' key, or null. */
    function GetOG(property: Option<string>): (r: Found<seq<(string, string)>>)
      reads this
      ensures property.None? || Falsy(property.value) ==> r == Whole(og)
      ensures property.Some? && !Falsy(property.value) ==> r == Entry(Lookup(og, OgKey(property.value)))
    {
      if property.None? || Falsy(property.value) then Whole(og) else Entry(Lookup(og, OgKey(property.value)))
    }

    /** `setOG`: store under the 'og:' key. */
    method SetOG(property: string, content: string)
      modifies this`og
      ensures og == Put(old(og), OgKey(property), content)
      ensures Lookup(og, OgKey(property)) == Some(content)
      ensures !Falsy(property) ==> GetOG(Some(property)) == Entry(Some(content))
      ensures Falsy(property) ==> GetOG(Some(property)) == Whole(og)
    {
      og := Put(og, OgKey(property), content);
    }

    /** `addLink`: links are keyed by href, so adding an href again overwrites it. */
    method AddLink(href: string, rel: string, attributes: seq<(string, string)> := [])
      modifies this`links
      ensures links == Put(old(links), href, Link(rel, attributes))
    {
      links := Put(links, href, Link(rel, attributes));
    }

    /** `setFavicon`: one more icon link; the constructor's '/favicon.ico' stays unless it is the same href. */
    method SetFavicon(path: string)
      modifies this`links
      ensures links == Put(old(links), path, Link("icon", FaviconType))
    {
      AddLink(path, "icon", FaviconType);
    }

    /**
     * `addStylesheet` as written: the link is recorded, then the method ends
     * without a return statement, which its `self` return type turns into an error.
     */
    method AddStylesheetAsWritten(href: string, attributes: seq<(string, string)> := []) returns (r: Result<(), string>)
      modifies this`links
      ensures links == Put(old(links), href, Link("stylesheet", attributes))
      ensures r == Err(AddStylesheetTypeError)
    {
      AddLink(href, "stylesheet", attributes);
      r := Err(AddStylesheetTypeError);
    }

    /** `addStylesheet` as intended: record a stylesheet link and return normally. */
    method AddStylesheet(href: string, attributes: seq<(string, string)> := []) returns (r: Result<(), string>)
      modifies this`links
      ensures links == Put(old(links), href, Link("stylesheet", attributes))
      ensures Lookup(links, href) == Some(Link("stylesheet", attributes))
      ensures r.Ok?
    {
      AddLink(href, "stylesheet", attributes);
      r := Ok(());
    }

    method AddInlineStyle(content: string)
      modifies this`inlineStyles
      ensures inlineStyles == old(inlineStyles) + [content]
    {
      inlineStyles := inlineStyles + [content];
    }

    /** `addScript`: append to the body list when `inBody`, else to the head list. */
    method AddScript(src: string, attributes: seq<(string, string)> := [], inBody: bool := false)
      modifies this`headScripts, this`postBodyScripts
      ensures inBody ==> postBodyScripts == old(postBodyScripts) + [External(src, attributes)] && headScripts == old(headScripts)
      ensures !inBody ==> headScripts == old(headScripts) + [External(src, attributes)] && postBodyScripts == old(postBodyScripts)
    {
      if inBody {
        postBodyScripts := postBodyScripts + [External(src, attributes)];
      } else {
        headScripts := headScripts + [External(src, attributes)];
      }
    }

    /** `addInlineScript`: like `addScript`, for a script given by its content. */
    method AddInlineScript(content: string, attributes: seq<(string, string)> := [], inBody: bool := false)
      modifies this`headScripts, this`postBodyScripts
      ensures inBody ==> postBodyScripts == old(postBodyScripts) + [Inline(content, attributes)] && headScripts == old(headScripts)
      ensures !inBody ==> headScripts == old(headScripts) + [Inline(content, attributes)] && postBodyScripts == old(postBodyScripts)
    {
      if inBody {
        postBodyScripts := postBodyScripts + [Inline(content, attributes)];
      } else {
        headScripts := headScripts + [Inline(content, attributes)];
      }
    }

    /** `implodeAttributes`: collect the pairs in a loop, then join them with spaces. */
    method ImplodeAttributes(attributes: seq<(string, string)>) returns (s: string)
      ensures s == AttributeString(attributes)
    {
      var attrString: seq<string> := [];
      var i := 0;
      while i < |attributes|
        invariant 0 <= i <= |attributes|
        invariant |attrString| == i && forall k :: 0 <= k < i ==> attrString[k] == AttrPair(attributes[k])
      {
        attrString := attrString + [AttrPair(attributes[i])];
        i := i + 1;
      }
      assert attrString == AttrPairs(attributes);
      s := Join(attrString, " ");
    }

    /** `renderHead`: title, description, meta, Open Graph, used stylesheets, links, used asset scripts, head scripts, inline styles. */
    method RenderHead() returns (html: string)
      requires assets.Valid()
      ensures html == HeadHtml(title, description, meta, og, assets.GetStylesheets(), links,
                               assets.GetScripts(), headScripts, inlineStyles)
    {
      html := TitleLine(title) + DescriptionLine(description);
      html := AppendMeta(html, meta);
      html := AppendEach(html, og, OgLine);
      html := AppendEach(html, assets.GetStylesheets(), StylesheetLine);
      html := AppendEach(html, links, LinkLine);
      html := AppendEach(html, assets.GetScripts(), AssetScriptLine);
      html := AppendEach(html, headScripts, ScriptLine);
      html := AppendEach(html, inlineStyles, StyleLine);
    }

    /** `renderBodyScripts`: one tag per body script, in the order added. */
    method RenderBodyScripts() returns (html: string)
      ensures html == ConcatMap(postBodyScripts, ScriptLine)
    {
      html := AppendEach("", postBodyScripts, ScriptLine);
    }
  }

  /** A tag without attributes keeps the space before its closing '>'. */
  lemma EmptyAttributesLeaveSpace(src: string)
    ensures ScriptLine(External(src, [])) == "<script src=\"" + src + "\" ></script>\n"
    ensures LinkLine((src, Link("stylesheet", []))) == "<link href=\"" + src + "\" rel=\"stylesheet\" >\n"
  {
    assert AttrPairs([]) == [];
  }
}
