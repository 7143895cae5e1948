/**
 * Micropub entry checks (`Micropub`,
 * secured/php-aegis/src/IndieWeb/Micropub.php): validation of a
 * microformats2 entry into a list of error messages, sanitisation of its
 * text properties, access-token format, and scope parsing.
 *
 * An entry is a PHP array (`PhpArray`). The validators are loops that
 * append messages; each is proved equal to a specification function, and
 * the properties are lemmas about those functions.
 */
module Micropub {
  import opened Common
  import opened Pcre
  import opened Foreign
  import opened PhpValues

  /** The media properties whose string values must be HTTPS URLs. */
  datatype MediaType = Photo | Video | Audio

  function MediaName(m: MediaType): string
  {
    match m
    case Photo => "photo"
    case Video => "video"
    case Audio => "audio"
  }

  /** The order in which the media properties are checked. */
  const MediaTypes: seq<MediaType> := [Photo, Video, Audio]

  /** One validation message; `Message` gives its exact text. */
  datatype Problem =
    | MissingType
    | TypeNotNonEmptyArray
    | MissingProperties
    | PropertiesNotArray
    | PropertyNotArray(name: string)
    | UrlNotString
    | InvalidUrl(url: string)
    | InvalidMedia(mediaType: MediaType, url: string)
    | InvalidSyndication(url: string)
    | HtmlNotString
    | DangerousHtml
    | ValueNotString
    | ScriptTags
    | ContentKind

  function Message(p: Problem): string
  {
    match p
    case MissingType => "Missing required field: type"
    case TypeNotNonEmptyArray => "Field \"type\" must be a non-empty array"
    case MissingProperties => "Missing required field: properties"
    case PropertiesNotArray => "Field \"properties\" must be an array"
    case PropertyNotArray(name) => "Property \"" + name + "\" must be an array"
    case UrlNotString => "URL must be a string"
    case InvalidUrl(url) => "Invalid or non-HTTPS URL: " + url
    case InvalidMedia(m, url) => "Invalid " + MediaName(m) + " URL: " + url
    case InvalidSyndication(url) => "Invalid syndication URL: " + url
    case HtmlNotString => "Content \"html\" must be a string"
    case DangerousHtml => "Content contains dangerous script tags or javascript: protocol"
    case ValueNotString => "Content \"value\" must be a string"
    case ScriptTags => "Content contains script tags"
    case ContentKind => "Content must be a string or object"
  }

  /** The messages `validateEntry` returns. */
  function Messages(ps: seq<Problem>): (r: seq<string>)
    ensures |r| == |ps| && forall i :: 0 <= i < |ps| ==> r[i] == Message(ps[i])
  {
    seq(|ps|, i requires 0 <= i < |ps| => Message(ps[i]))
  }

  // ------------------------------------------------------------ validation

  /** `validateContent`: the messages for one item of the `content` property. */
  function ContentErrors(content: Value): (errs: seq<Problem>)
    ensures |errs| <= 2
  {
    match content
    case Arr(c) =>
      (if IsSet(c, StrKey("html")) then
         match Get(c, StrKey("html")).value
         case Str(h) => if Contains(h, "<script>") || Contains(h, "javascript:") then [DangerousHtml] else []
         case _ => [HtmlNotString]
       else [])
      + (if IsSet(c, StrKey("value")) && !Get(c, StrKey("value")).value.Str? then [ValueNotString] else [])
    case Str(s) => if Contains(s, "<script>") then [ScriptTags] else []
    case _ => [ContentKind]
  }

  /** One item of `url`: a non-string, or a string that is not an HTTPS URL, is reported. */
  function UrlItemErrors(url: Value, v: Validator): (errs: seq<Problem>)
    ensures |errs| == (if !url.Str? || !v.httpsUrl(url.s) then 1 else 0)
  {
    if !url.Str? then [UrlNotString]
    else if !v.httpsUrl(url.s) then [InvalidUrl(url.s)]
    else []
  }

  /** One item of a media property: only strings are checked. */
  function MediaItemErrors(mediaType: MediaType, mediaUrl: Value, v: Validator): (errs: seq<Problem>)
    ensures |errs| == (if mediaUrl.Str? && !v.httpsUrl(mediaUrl.s) then 1 else 0)
  {
    if mediaUrl.Str? && !v.httpsUrl(mediaUrl.s) then [InvalidMedia(mediaType, mediaUrl.s)] else []
  }

  /** One item of `syndication`: only strings are checked, and with `Validator::url`. */
  function SyndicationItemErrors(syndicationUrl: Value, v: Validator): (errs: seq<Problem>)
    ensures |errs| == (if syndicationUrl.Str? && !v.url(syndicationUrl.s) then 1 else 0)
  {
    if syndicationUrl.Str? && !v.url(syndicationUrl.s) then [InvalidSyndication(syndicationUrl.s)] else []
  }

  function UrlItemFn(v: Validator): Value -> seq<Problem>
  {
    (x: Value) => UrlItemErrors(x, v)
  }

  function MediaItemFn(mediaType: MediaType, v: Validator): Value -> seq<Problem>
  {
    (x: Value) => MediaItemErrors(mediaType, x, v)
  }

  function SyndicationItemFn(v: Validator): Value -> seq<Problem>
  {
    (x: Value) => SyndicationItemErrors(x, v)
  }

  /**
   * The messages for one list property: none when it is not set, one when
   * it is set but not an array, else the messages of its items in order.
   */
  function SectionErrors(props: PhpArray, name: string, item: Value -> seq<Problem>): seq<Problem>
  {
    if !IsSet(props, StrKey(name)) then []
    else match Get(props, StrKey(name)).value
      case Arr(items) => FlatMap(Values(items), item)
      case _ => [PropertyNotArray(name)]
  }

  function MediaSectionFn(props: PhpArray, v: Validator): MediaType -> seq<Problem>
  {
    (t: MediaType) => SectionErrors(props, MediaName(t), MediaItemFn(t, v))
  }

  /** `validateProperties`: content, url, photo, video, audio, then syndication. */
  function PropertiesErrors(props: PhpArray, v: Validator): seq<Problem>
  {
    SectionErrors(props, "content", ContentErrors)
    + SectionErrors(props, "url", UrlItemFn(v))
    + FlatMap(MediaTypes, MediaSectionFn(props, v))
    + SectionErrors(props, "syndication", SyndicationItemFn(v))
  }

  /** The messages about the `type` and `properties` fields themselves. */
  function TopErrors(entry: PhpArray): seq<Problem>
  {
    (if !IsSet(entry, StrKey("type")) then [MissingType]
     else if !Get(entry, StrKey("type")).value.Arr? || Get(entry, StrKey("type")).value.entries == [] then [TypeNotNonEmptyArray]
     else [])
    + (if !IsSet(entry, StrKey("properties")) then [MissingProperties]
       else if !Get(entry, StrKey("properties")).value.Arr? then [PropertiesNotArray]
       else [])
  }

  /** `properties` is set and is an array, so it is validated. */
  predicate HasPropertyArray(entry: PhpArray)
  {
    IsSet(entry, StrKey("properties")) && Get(entry, StrKey("properties")).value.Arr?
  }

  function PropertyArray(entry: PhpArray): PhpArray
    requires HasPropertyArray(entry)
  {
    Get(entry, StrKey("properties")).value.entries
  }

  /** `validateEntry`'s error list. */
  function EntryErrors(entry: PhpArray, v: Validator): seq<Problem>
  {
    TopErrors(entry) + (if HasPropertyArray(entry) then PropertiesErrors(PropertyArray(entry), v) else [])
  }

  /** `['valid' => ..., 'errors' => ...]`. */
  datatype Validation = Validation(valid: bool, errors: seq<Problem>)

  /** The messages of the items of one list property, appended in a loop. */
  method CollectSection(props: PhpArray, name: string, item: Value -> seq<Problem>) returns (errors: seq<Problem>)
    ensures errors == SectionErrors(props, name, item)
  {
    errors := [];
    if IsSet(props, StrKey(name)) {
      var value := Get(props, StrKey(name)).value;
      if !value.Arr? {
        errors := errors + [PropertyNotArray(name)];
      } else {
        var items := Values(value.entries);
        for i := 0 to |items|
          invariant errors == FlatMap(items[..i], item)
        {
          assert items[..i + 1][..i] == items[..i];
          errors := errors + item(items[i]);
        }
        assert items[..|items|] == items;
      }
    }
  }

  /** The media loop: photo, video, then audio. */
  method CollectMedia(props: PhpArray, v: Validator) returns (errors: seq<Problem>)
    ensures errors == FlatMap(MediaTypes, MediaSectionFn(props, v))
  {
    errors := [];
    for m := 0 to |MediaTypes|
      invariant errors == FlatMap(MediaTypes[..m], MediaSectionFn(props, v))
    {
      var mediaType := MediaTypes[m];
      var mediaErrors := CollectSection(props, MediaName(mediaType), MediaItemFn(mediaType, v));
      FlatMapSnoc(MediaTypes, m, MediaSectionFn(props, v));
      errors := errors + mediaErrors;
    }
    assert MediaTypes[..|MediaTypes|] == MediaTypes;
  }

  /** `validateProperties`. */
  method ValidateProperties(props: PhpArray, v: Validator) returns (errors: seq<Problem>)
    ensures errors == PropertiesErrors(props, v)
  {
    errors := CollectSection(props, "content", ContentErrors);
    var urlErrors := CollectSection(props, "url", UrlItemFn(v));
    errors := errors + urlErrors;
    var mediaErrors := CollectMedia(props, v);
    errors := errors + mediaErrors;
    var syndicationErrors := CollectSection(props, "syndication", SyndicationItemFn(v));
    errors := errors + syndicationErrors;
  }

  /** `validateEntry`: valid exactly when the error list is empty. */
  method ValidateEntry(entry: PhpArray, v: Validator) returns (r: Validation)
    ensures r.errors == EntryErrors(entry, v)
    ensures r.valid <==> r.errors == []
  {
    var errors: seq<Problem> := [];
    if !IsSet(entry, StrKey("type")) {
      errors := errors + [MissingType];
    } else if !Get(entry, StrKey("type")).value.Arr? || Get(entry, StrKey("type")).value.entries == [] {
      errors := errors + [TypeNotNonEmptyArray];
    }
    if !IsSet(entry, StrKey("properties")) {
      errors := errors + [MissingProperties];
    } else if !Get(entry, StrKey("properties")).value.Arr? {
      errors := errors + [PropertiesNotArray];
    }
    assert errors == TopErrors(entry);
    if IsSet(entry, StrKey("properties")) && Get(entry, StrKey("properties")).value.Arr? {
      var propertyErrors := ValidateProperties(Get(entry, StrKey("properties")).value.entries, v);
      assert propertyErrors == PropertiesErrors(PropertyArray(entry), v);
      errors := errors + propertyErrors;
    }
    return Validation(errors == [], errors);
  }

  // ----------------------------------------------- properties of validation

  /** The messages about the `type` and `properties` fields themselves. */
  predicate TopLevel(p: Problem)
  {
    p.MissingType? || p.TypeNotNonEmptyArray? || p.MissingProperties? || p.PropertiesNotArray?
  }

  /** A property that every item message and the not-an-array message of a section have, all its messages have. */
  lemma SectionAll(props: PhpArray, name: string, item: Value -> seq<Problem>, P: Problem -> bool)
    requires P(PropertyNotArray(name))
    requires forall y, z :: z in item(y) ==> P(z)
    ensures forall x :: x in SectionErrors(props, name, item) ==> P(x)
  {
    if IsSet(props, StrKey(name)) && Get(props, StrKey(name)).value.Arr? {
      var vals := Values(Get(props, StrKey(name)).value.entries);
      forall x | x in FlatMap(vals, item)
        ensures P(x)
      {
        FlatMapMember(vals, item, x);
      }
    }
  }

  /** The same for the three media sections together. */
  lemma MediaAll(props: PhpArray, v: Validator, P: Problem -> bool)
    requires forall m :: P(PropertyNotArray(MediaName(m)))
    requires forall m, y, z :: z in MediaItemFn(m, v)(y) ==> P(z)
    ensures forall x :: x in FlatMap(MediaTypes, MediaSectionFn(props, v)) ==> P(x)
  {
    forall x | x in FlatMap(MediaTypes, MediaSectionFn(props, v))
      ensures P(x)
    {
      FlatMapMember(MediaTypes, MediaSectionFn(props, v), x);
      var i :| 0 <= i < |MediaTypes| && x in MediaSectionFn(props, v)(MediaTypes[i]);
      SectionAll(props, MediaName(MediaTypes[i]), MediaItemFn(MediaTypes[i], v), P);
    }
  }

  function NotTopLevel(p: Problem): bool
  {
    !TopLevel(p)
  }

  function NotScriptTags(p: Problem): bool
  {
    !p.ScriptTags?
  }

  /** Property validation never produces a top-level message. */
  lemma PropertyProblemsNotTopLevel(props: PhpArray, v: Validator)
    ensures forall x :: x in PropertiesErrors(props, v) ==> !TopLevel(x)
  {
    SectionAll(props, "content", ContentErrors, NotTopLevel);
    SectionAll(props, "url", UrlItemFn(v), NotTopLevel);
    MediaAll(props, v, NotTopLevel);
    SectionAll(props, "syndication", SyndicationItemFn(v), NotTopLevel);
  }

  /** Only content items produce the plain-text script message. */
  lemma OtherSectionsNoScript(props: PhpArray, v: Validator)
    ensures forall x :: x in SectionErrors(props, "url", UrlItemFn(v)) ==> NotScriptTags(x)
    ensures forall x :: x in FlatMap(MediaTypes, MediaSectionFn(props, v)) ==> NotScriptTags(x)
    ensures forall x :: x in SectionErrors(props, "syndication", SyndicationItemFn(v)) ==> NotScriptTags(x)
  {
    SectionAll(props, "url", UrlItemFn(v), NotScriptTags);
    MediaAll(props, v, NotScriptTags);
    SectionAll(props, "syndication", SyndicationItemFn(v), NotScriptTags);
  }

  /**
   * The four messages about `type` and `properties` are distinct from each
   * other and from every property message, so each one is reported exactly
   * when its condition holds.
   */
  lemma TopLevelMessages(entry: PhpArray, v: Validator)
    ensures MissingType in EntryErrors(entry, v) <==> !IsSet(entry, StrKey("type"))
    ensures TypeNotNonEmptyArray in EntryErrors(entry, v) <==>
      IsSet(entry, StrKey("type")) && (!Get(entry, StrKey("type")).value.Arr? || Get(entry, StrKey("type")).value.entries == [])
    ensures MissingProperties in EntryErrors(entry, v) <==> !IsSet(entry, StrKey("properties"))
    ensures PropertiesNotArray in EntryErrors(entry, v) <==>
      IsSet(entry, StrKey("properties")) && !Get(entry, StrKey("properties")).value.Arr?
  {
    TopErrorsMeaning(entry);
    if HasPropertyArray(entry) {
      PropertyProblemsNotTopLevel(PropertyArray(entry), v);
      var rest := PropertiesErrors(PropertyArray(entry), v);
      assert EntryErrors(entry, v) == TopErrors(entry) + rest;
      assert MissingType !in rest && TypeNotNonEmptyArray !in rest && MissingProperties !in rest && PropertiesNotArray !in rest;
    } else {
      assert EntryErrors(entry, v) == TopErrors(entry);
    }
  }

  /** The top-level messages: one about `type` at most, then one about `properties` at most. */
  lemma TopErrorsMeaning(entry: PhpArray)
    ensures MissingType in TopErrors(entry) <==> !IsSet(entry, StrKey("type"))
    ensures TypeNotNonEmptyArray in TopErrors(entry) <==>
      IsSet(entry, StrKey("type")) && (!Get(entry, StrKey("type")).value.Arr? || Get(entry, StrKey("type")).value.entries == [])
    ensures MissingProperties in TopErrors(entry) <==> !IsSet(entry, StrKey("properties"))
    ensures PropertiesNotArray in TopErrors(entry) <==>
      IsSet(entry, StrKey("properties")) && !Get(entry, StrKey("properties")).value.Arr?
  {
  }

  /** Properties are validated only when `properties` is an array; otherwise only the top-level messages remain. */
  lemma PropertiesOnlyWhenArray(entry: PhpArray, v: Validator)
    requires !HasPropertyArray(entry)
    ensures EntryErrors(entry, v) == TopErrors(entry)
    ensures 1 <= |EntryErrors(entry, v)| <= 2
  {
  }

  /** What one content item contributes, for each kind of item. */
  lemma ContentMeaning(content: Value)
    ensures content.Str? ==> (ContentErrors(content) == [] <==> !Contains(content.s, "<script>"))
    ensures content.Str? ==> (ScriptTags in ContentErrors(content) <==> Contains(content.s, "<script>"))
    ensures content.Arr? ==> ScriptTags !in ContentErrors(content)
    ensures content.Arr? && IsSet(content.entries, StrKey("html")) && Get(content.entries, StrKey("html")).value.Str? ==>
      var h := Get(content.entries, StrKey("html")).value.s;
      (DangerousHtml in ContentErrors(content) <==> Contains(h, "<script>") || Contains(h, "javascript:"))
    ensures content.Arr? && !IsSet(content.entries, StrKey("html")) ==> DangerousHtml !in ContentErrors(content)
    ensures !content.Str? && !content.Arr? ==> ContentErrors(content) == [ContentKind]
  {
  }

  /**
   * The `url` property yields one message per item that is not a string or
   * not an HTTPS URL, and none when every item is an HTTPS URL.
   */
  lemma UrlSectionMeaning(props: PhpArray, items: PhpArray, v: Validator)
    requires Get(props, StrKey("url")) == Some(Arr(items))
    ensures |SectionErrors(props, "url", UrlItemFn(v))| == CountIf(Values(items), (x: Value) => !x.Str? || !v.httpsUrl(x.s))
    ensures SectionErrors(props, "url", UrlItemFn(v)) == [] <==>
      forall i :: 0 <= i < |items| ==> items[i].1.Str? && v.httpsUrl(items[i].1.s)
  {
    var vals := Values(items);
    FlatMapCount(vals, UrlItemFn(v), (x: Value) => !x.Str? || !v.httpsUrl(x.s));
    FlatMapEmpty(vals, UrlItemFn(v));
  }

  /** A media property yields one message per string that is not an HTTPS URL; other items are ignored. */
  lemma MediaSectionMeaning(props: PhpArray, mediaType: MediaType, items: PhpArray, v: Validator)
    requires Get(props, StrKey(MediaName(mediaType))) == Some(Arr(items))
    ensures |SectionErrors(props, MediaName(mediaType), MediaItemFn(mediaType, v))| ==
      CountIf(Values(items), (x: Value) => x.Str? && !v.httpsUrl(x.s))
  {
    FlatMapCount(Values(items), MediaItemFn(mediaType, v), (x: Value) => x.Str? && !v.httpsUrl(x.s));
  }

  // ---------------------------------------------------------- sanitisation

  /** `fn($x) => is_string($x) ? Sanitizer::html($x) : $x`. */
  function HtmlIfString(san: Sanitizer): Value -> Value
  {
    (x: Value) => if x.Str? then Str(san.html(x.s)) else x
  }

  /** `sanitizeContent`. */
  function SanitizeContent(san: Sanitizer, content: Value): Value
  {
    match content
    case Arr(c) =>
      var c1 := if IsSet(c, StrKey("html")) && Get(c, StrKey("html")).value.Str?
        then Put(c, StrKey("html"), Str(san.html(san.stripTags(Get(c, StrKey("html")).value.s))))
        else c;
      var c2 := if IsSet(c1, StrKey("value")) && Get(c1, StrKey("value")).value.Str?
        then Put(c1, StrKey("value"), Str(san.html(Get(c1, StrKey("value")).value.s)))
        else c1;
      Arr(c2)
    case Str(s) => Str(san.html(s))
    case _ => content
  }

  function SanitizeContentFn(san: Sanitizer): Value -> Value
  {
    (x: Value) => SanitizeContent(san, x)
  }

  /** `$props[$name] = array_map($f, $props[$name])` when that property is set and is an array. */
  function MapProperty(props: PhpArray, name: string, f: Value -> Value): PhpArray
  {
    if IsSet(props, StrKey(name)) && Get(props, StrKey(name)).value.Arr?
    then Put(props, StrKey(name), Arr(MapValues(Get(props, StrKey(name)).value.entries, f)))
    else props
  }

  /** The property array after `sanitizeEntry`: name, summary, content, category, in that order. */
  function SanitizedProperties(props: PhpArray, san: Sanitizer): PhpArray
  {
    var p1 := MapProperty(props, "name", HtmlIfString(san));
    var p2 := MapProperty(p1, "summary", HtmlIfString(san));
    var p3 := MapProperty(p2, "content", SanitizeContentFn(san));
    MapProperty(p3, "category", HtmlIfString(san))
  }

  /** `sanitizeEntry`'s result. */
  function SanitizedEntry(entry: PhpArray, san: Sanitizer): PhpArray
  {
    if !HasPropertyArray(entry) then entry
    else Put(entry, StrKey("properties"), Arr(SanitizedProperties(PropertyArray(entry), san)))
  }

  /** `sanitizeEntry`: rewrites the property array in place, content item by content item. */
  method SanitizeEntry(entry: PhpArray, san: Sanitizer) returns (sanitized: PhpArray)
    ensures sanitized == SanitizedEntry(entry, san)
  {
    sanitized := entry;
    if !IsSet(sanitized, StrKey("properties")) || !Get(sanitized, StrKey("properties")).value.Arr? {
      return;
    }
    var properties := Get(sanitized, StrKey("properties")).value.entries;
    properties := MapProperty(properties, "name", HtmlIfString(san));
    properties := MapProperty(properties, "summary", HtmlIfString(san));
    if IsSet(properties, StrKey("content")) && Get(properties, StrKey("content")).value.Arr? {
      var items := Get(properties, StrKey("content")).value.entries;
      var out := items;
      for i := 0 to |items|
        invariant |out| == |items|
        invariant forall j :: 0 <= j < i ==> out[j] == (items[j].0, SanitizeContent(san, items[j].1))
        invariant forall j :: i <= j < |items| ==> out[j] == items[j]
      {
        out := out[i := (items[i].0, SanitizeContent(san, items[i].1))];
      }
      assert out == MapValues(items, SanitizeContentFn(san));
      properties := Put(properties, StrKey("content"), Arr(out));
    }
    properties := MapProperty(properties, "category", HtmlIfString(san));
    sanitized := Put(sanitized, StrKey("properties"), Arr(properties));
  }

  // --------------------------------------------- properties of sanitisation

  /** An entry without a property array comes back unchanged. */
  lemma SanitizeWithoutProperties(entry: PhpArray, san: Sanitizer)
    requires !HasPropertyArray(entry)
    ensures SanitizedEntry(entry, san) == entry
  {
  }

  lemma MapPropertyFrame(props: PhpArray, name: string, f: Value -> Value, k: Key)
    ensures Keys(MapProperty(props, name, f)) == Keys(props)
    ensures k != StrKey(name) ==> Get(MapProperty(props, name, f), k) == Get(props, k)
    ensures IsSet(props, StrKey(name)) && Get(props, StrKey(name)).value.Arr? ==>
      Get(MapProperty(props, name, f), StrKey(name)) == Some(Arr(MapValues(Get(props, StrKey(name)).value.entries, f)))
    ensures !(IsSet(props, StrKey(name)) && Get(props, StrKey(name)).value.Arr?) ==> MapProperty(props, name, f) == props
  {
    if IsSet(props, StrKey(name)) && Get(props, StrKey(name)).value.Arr? {
      var w := Arr(MapValues(Get(props, StrKey(name)).value.entries, f));
      KeyOfGet(props, StrKey(name));
      KeysPut(props, StrKey(name), w);
      GetPut(props, StrKey(name), w, k);
    }
  }

  /** The property names `sanitizeEntry` rewrites. */
  predicate Sanitized(k: Key)
  {
    k == StrKey("name") || k == StrKey("summary") || k == StrKey("content") || k == StrKey("category")
  }

  /**
   * Sanitisation keeps every key of the property array in place and
   * changes no property other than name, summary, content and category.
   */
  lemma SanitizeFrame(props: PhpArray, san: Sanitizer, k: Key)
    ensures Keys(SanitizedProperties(props, san)) == Keys(props)
    ensures !Sanitized(k) ==> Get(SanitizedProperties(props, san), k) == Get(props, k)
  {
    var p1 := MapProperty(props, "name", HtmlIfString(san));
    var p2 := MapProperty(p1, "summary", HtmlIfString(san));
    var p3 := MapProperty(p2, "content", SanitizeContentFn(san));
    MapPropertyFrame(props, "name", HtmlIfString(san), k);
    MapPropertyFrame(p1, "summary", HtmlIfString(san), k);
    MapPropertyFrame(p2, "content", SanitizeContentFn(san), k);
    MapPropertyFrame(p3, "category", HtmlIfString(san), k);
  }

  /**
   * In name, summary and category, each string item is replaced by its HTML
   * escape and every other item is left as it was; keys are kept.
   */
  lemma SanitizeTextLists(props: PhpArray, san: Sanitizer, name: string, items: PhpArray)
    requires name == "name" || name == "summary" || name == "category"
    requires Get(props, StrKey(name)) == Some(Arr(items))
    ensures Get(SanitizedProperties(props, san), StrKey(name)) == Some(Arr(MapValues(items, HtmlIfString(san))))
    ensures forall i :: 0 <= i < |items| ==>
      MapValues(items, HtmlIfString(san))[i] ==
        (items[i].0, if items[i].1.Str? then Str(san.html(items[i].1.s)) else items[i].1)
  {
    var k := StrKey(name);
    var p1 := MapProperty(props, "name", HtmlIfString(san));
    var p2 := MapProperty(p1, "summary", HtmlIfString(san));
    var p3 := MapProperty(p2, "content", SanitizeContentFn(san));
    MapPropertyFrame(props, "name", HtmlIfString(san), k);
    MapPropertyFrame(p1, "summary", HtmlIfString(san), k);
    MapPropertyFrame(p2, "content", SanitizeContentFn(san), k);
    MapPropertyFrame(p3, "category", HtmlIfString(san), k);
  }

  /** The content list after sanitisation: every item through `sanitizeContent`, keys kept. */
  lemma SanitizeContentList(props: PhpArray, san: Sanitizer, items: PhpArray)
    requires Get(props, StrKey("content")) == Some(Arr(items))
    ensures Get(SanitizedProperties(props, san), StrKey("content")) == Some(Arr(MapValues(items, SanitizeContentFn(san))))
  {
    var k := StrKey("content");
    var p1 := MapProperty(props, "name", HtmlIfString(san));
    var p2 := MapProperty(p1, "summary", HtmlIfString(san));
    var p3 := MapProperty(p2, "content", SanitizeContentFn(san));
    MapPropertyFrame(props, "name", HtmlIfString(san), k);
    MapPropertyFrame(p1, "summary", HtmlIfString(san), k);
    MapPropertyFrame(p2, "content", SanitizeContentFn(san), k);
    MapPropertyFrame(p3, "category", HtmlIfString(san), k);
  }

  /** A sanitised content item never draws the plain-text script message; a sanitised string draws none. */
  lemma SanitizedContentIsClean(san: Sanitizer, content: Value)
    requires EscapesAngles(san)
    ensures ScriptTags !in ContentErrors(SanitizeContent(san, content))
    ensures content.Str? ==> ContentErrors(SanitizeContent(san, content)) == []
  {
    if content.Str? {
      ContainsChar(san.html(content.s), "<script>", '<');
    }
  }

  /** A list property whose key sanitisation does not touch draws the same messages after it. */
  lemma SanitizeKeepsSection(props: PhpArray, san: Sanitizer, name: string, item: Value -> seq<Problem>)
    requires !Sanitized(StrKey(name))
    ensures SectionErrors(SanitizedProperties(props, san), name, item) == SectionErrors(props, name, item)
  {
    SanitizeFrame(props, san, StrKey(name));
  }

  /** The media sections draw the same messages after sanitisation. */
  lemma SanitizeKeepsMedia(props: PhpArray, san: Sanitizer, v: Validator)
    ensures FlatMap(MediaTypes, MediaSectionFn(SanitizedProperties(props, san), v)) == FlatMap(MediaTypes, MediaSectionFn(props, v))
  {
    var sp := SanitizedProperties(props, san);
    forall i | 0 <= i < |MediaTypes|
      ensures MediaSectionFn(sp, v)(MediaTypes[i]) == MediaSectionFn(props, v)(MediaTypes[i])
    {
      var t := MediaTypes[i];
      SanitizeKeepsSection(props, san, MediaName(t), MediaItemFn(t, v));
    }
    FlatMapSame(MediaTypes, MediaSectionFn(sp, v), MediaSectionFn(props, v));
  }

  /** No list property other than content is touched, so its messages are the same after sanitisation. */
  lemma SanitizeKeepsOtherSections(props: PhpArray, san: Sanitizer, v: Validator)
    ensures SectionErrors(SanitizedProperties(props, san), "url", UrlItemFn(v)) == SectionErrors(props, "url", UrlItemFn(v))
    ensures FlatMap(MediaTypes, MediaSectionFn(SanitizedProperties(props, san), v)) == FlatMap(MediaTypes, MediaSectionFn(props, v))
    ensures SectionErrors(SanitizedProperties(props, san), "syndication", SyndicationItemFn(v)) ==
      SectionErrors(props, "syndication", SyndicationItemFn(v))
  {
    SanitizeKeepsSection(props, san, "url", UrlItemFn(v));
    SanitizeKeepsSection(props, san, "syndication", SyndicationItemFn(v));
    SanitizeKeepsMedia(props, san, v);
  }

  lemma SanitizeKeepsTop(entry: PhpArray, san: Sanitizer)
    ensures TopErrors(SanitizedEntry(entry, san)) == TopErrors(entry)
    ensures HasPropertyArray(SanitizedEntry(entry, san)) == HasPropertyArray(entry)
    ensures HasPropertyArray(entry) ==>
      PropertyArray(SanitizedEntry(entry, san)) == SanitizedProperties(PropertyArray(entry), san)
  {
    if HasPropertyArray(entry) {
      var w := Arr(SanitizedProperties(PropertyArray(entry), san));
      GetPut(entry, StrKey("properties"), w, StrKey("type"));
    }
  }

  lemma SanitizeUntouchedContent(props: PhpArray, san: Sanitizer)
    requires !(IsSet(props, StrKey("content")) && Get(props, StrKey("content")).value.Arr?)
    ensures Get(SanitizedProperties(props, san), StrKey("content")) == Get(props, StrKey("content"))
  {
    var k := StrKey("content");
    var p1 := MapProperty(props, "name", HtmlIfString(san));
    var p2 := MapProperty(p1, "summary", HtmlIfString(san));
    var p3 := MapProperty(p2, "content", SanitizeContentFn(san));
    MapPropertyFrame(props, "name", HtmlIfString(san), k);
    MapPropertyFrame(p1, "summary", HtmlIfString(san), k);
    MapPropertyFrame(p2, "content", SanitizeContentFn(san), k);
    MapPropertyFrame(p3, "category", HtmlIfString(san), k);
  }

  /** After sanitisation the content section draws no script-tag message. */
  lemma SanitizedContentSection(props: PhpArray, san: Sanitizer)
    requires EscapesAngles(san)
    ensures forall x :: x in SectionErrors(SanitizedProperties(props, san), "content", ContentErrors) ==> NotScriptTags(x)
  {
    if IsSet(props, StrKey("content")) && Get(props, StrKey("content")).value.Arr? {
      var items := Get(props, StrKey("content")).value.entries;
      SanitizeContentList(props, san, items);
      var vals := Values(MapValues(items, SanitizeContentFn(san)));
      forall x | x in FlatMap(vals, ContentErrors)
        ensures NotScriptTags(x)
      {
        FlatMapMember(vals, ContentErrors, x);
        var i :| 0 <= i < |vals| && x in ContentErrors(vals[i]);
        SanitizedContentIsClean(san, items[i].1);
      }
    } else {
      SanitizeUntouchedContent(props, san);
    }
  }

  /** Every message of the sanitised property array is other than the script-tag one. */
  lemma SanitizedPropertiesNoScript(props: PhpArray, san: Sanitizer, v: Validator)
    requires EscapesAngles(san)
    ensures forall x :: x in PropertiesErrors(SanitizedProperties(props, san), v) ==> NotScriptTags(x)
  {
    var sp := SanitizedProperties(props, san);
    SanitizedContentSection(props, san);
    SanitizeKeepsOtherSections(props, san, v);
    OtherSectionsNoScript(props, v);
  }

  /**
   * With an HTML escape that removes every `<`, no sanitised entry is ever
   * reported for script tags in plain-text content.
   */
  lemma NoScriptTagsAfterSanitize(entry: PhpArray, san: Sanitizer, v: Validator)
    requires EscapesAngles(san)
    ensures ScriptTags !in EntryErrors(SanitizedEntry(entry, san), v)
  {
    SanitizeKeepsTop(entry, san);
    if HasPropertyArray(entry) {
      SanitizedPropertiesNoScript(PropertyArray(entry), san, v);
    }
  }

  /** Every content item is a string, or the content property is absent or not an array. */
  predicate PlainContentItems(props: PhpArray)
  {
    IsSet(props, StrKey("content")) && Get(props, StrKey("content")).value.Arr? ==>
      forall i :: 0 <= i < |Get(props, StrKey("content")).value.entries| ==>
        Get(props, StrKey("content")).value.entries[i].1.Str?
  }

  /** The content property of the entry is absent, not an array, or a list of plain strings. */
  predicate PlainContent(entry: PhpArray)
  {
    HasPropertyArray(entry) ==> PlainContentItems(PropertyArray(entry))
  }

  /** A list of plain-text content items draws nothing once sanitised, and only script-tag messages before. */
  lemma PlainContentList(san: Sanitizer, items: PhpArray)
    requires EscapesAngles(san)
    requires forall i :: 0 <= i < |items| ==> items[i].1.Str?
    ensures FlatMap(Values(MapValues(items, SanitizeContentFn(san))), ContentErrors) == []
    ensures Filter(FlatMap(Values(items), ContentErrors), NotScriptTags) == []
  {
    var vals := Values(MapValues(items, SanitizeContentFn(san)));
    forall i | 0 <= i < |vals|
      ensures ContentErrors(vals[i]) == []
    {
      SanitizedContentIsClean(san, items[i].1);
    }
    FlatMapEmpty(vals, ContentErrors);
    PlainContentErrors(Values(items));
  }

  /** For plain-text content, sanitising removes exactly the script-tag messages of the content section. */
  lemma PlainContentSection(props: PhpArray, san: Sanitizer)
    requires EscapesAngles(san)
    requires PlainContentItems(props)
    ensures SectionErrors(SanitizedProperties(props, san), "content", ContentErrors) ==
      Filter(SectionErrors(props, "content", ContentErrors), NotScriptTags)
  {
    if IsSet(props, StrKey("content")) && Get(props, StrKey("content")).value.Arr? {
      var items := Get(props, StrKey("content")).value.entries;
      SanitizeContentList(props, san, items);
      PlainContentList(san, items);
      SectionOfArray(SanitizedProperties(props, san), "content", ContentErrors, MapValues(items, SanitizeContentFn(san)));
      SectionOfArray(props, "content", ContentErrors, items);
    } else {
      SanitizeUntouchedContent(props, san);
      SectionSame(SanitizedProperties(props, san), props, "content", ContentErrors);
      FilterAll(SectionErrors(props, "content", ContentErrors), NotScriptTags);
    }
  }

  /** A list property that is an array draws its items' messages. */
  lemma SectionOfArray(p: PhpArray, name: string, item: Value -> seq<Problem>, items: PhpArray)
    requires Get(p, StrKey(name)) == Some(Arr(items))
    ensures SectionErrors(p, name, item) == FlatMap(Values(items), item)
  {
  }

  /** Two property arrays with the same value under a key draw the same messages for it. */
  lemma SectionSame(p: PhpArray, q: PhpArray, name: string, item: Value -> seq<Problem>)
    requires Get(p, StrKey(name)) == Get(q, StrKey(name))
    ensures SectionErrors(p, name, item) == SectionErrors(q, name, item)
  {
  }

  /** For plain-text content, the sanitised property array draws the old messages minus the script-tag ones. */
  lemma PlainPropertiesAfterSanitize(props: PhpArray, san: Sanitizer, v: Validator)
    requires EscapesAngles(san)
    requires PlainContentItems(props)
    ensures PropertiesErrors(SanitizedProperties(props, san), v) == Filter(PropertiesErrors(props, v), NotScriptTags)
  {
    PlainContentSection(props, san);
    SanitizeKeepsOtherSections(props, san, v);
    OtherSectionsNoScript(props, v);
    var c := SectionErrors(props, "content", ContentErrors);
    var u := SectionErrors(props, "url", UrlItemFn(v));
    var m := FlatMap(MediaTypes, MediaSectionFn(props, v));
    var s := SectionErrors(props, "syndication", SyndicationItemFn(v));
    FilterAll(u, NotScriptTags);
    FilterAll(m, NotScriptTags);
    FilterAll(s, NotScriptTags);
    FilterConcat(c + u + m, s, NotScriptTags);
    FilterConcat(c + u, m, NotScriptTags);
    FilterConcat(c, u, NotScriptTags);
  }

  /**
   * Sanitise-then-validate: when the content is plain text, sanitising an
   * entry removes exactly its script-tag messages and leaves every other
   * message as it was, in order.
   */
  lemma SanitizeThenValidate(entry: PhpArray, san: Sanitizer, v: Validator)
    requires EscapesAngles(san)
    requires PlainContent(entry)
    ensures EntryErrors(SanitizedEntry(entry, san), v) == Filter(EntryErrors(entry, v), NotScriptTags)
  {
    SanitizeKeepsTop(entry, san);
    var top := TopErrors(entry);
    FilterAll(top, NotScriptTags);
    var se := SanitizedEntry(entry, san);
    if HasPropertyArray(entry) {
      var props := PropertyArray(entry);
      var rest := PropertiesErrors(props, v);
      assert EntryErrors(entry, v) == top + rest;
      assert EntryErrors(se, v) == top + PropertiesErrors(SanitizedProperties(props, san), v);
      PlainPropertiesAfterSanitize(props, san, v);
      FilterConcat(top, rest, NotScriptTags);
    } else {
      assert EntryErrors(entry, v) == top + [];
      assert EntryErrors(se, v) == top + [];
    }
  }

  /** Plain-text content draws only script-tag messages. */
  lemma {:induction false} PlainContentErrors(items: seq<Value>)
    requires forall i :: 0 <= i < |items| ==> items[i].Str?
    ensures Filter(FlatMap(items, ContentErrors), NotScriptTags) == []
  {
    if items != [] {
      var init := items[..|items| - 1];
      PlainContentErrors(init);
      FilterConcat(FlatMap(init, ContentErrors), ContentErrors(items[|items| - 1]), NotScriptTags);
    }
  }

  /**
   * The integration case: an entry whose only problem is script tags in
   * plain-text content is valid once sanitised.
   */
  lemma SanitizedEntryBecomesValid(entry: PhpArray, san: Sanitizer, v: Validator)
    requires EscapesAngles(san)
    requires PlainContent(entry)
    requires forall i :: 0 <= i < |EntryErrors(entry, v)| ==> EntryErrors(entry, v)[i] == ScriptTags
    ensures EntryErrors(SanitizedEntry(entry, san), v) == []
  {
    SanitizeThenValidate(entry, san, v);
    FilterMembersNone(EntryErrors(entry, v));
  }

  lemma FilterMembersNone(errs: seq<Problem>)
    requires forall i :: 0 <= i < |errs| ==> errs[i] == ScriptTags
    ensures Filter(errs, NotScriptTags) == []
  {
    if Filter(errs, NotScriptTags) != [] {
      var x := Filter(errs, NotScriptTags)[0];
      FilterMembers(errs, NotScriptTags, x);
    }
  }

  // ---------------------------------------------------------------- tokens

  /** `validateTokenFormat`. */
  function ValidateTokenFormat(token: string, v: Validator): (ok: bool)
    ensures ok ==> |token| >= 32 && !HasSpace(token) && v.printable(token) && v.noNullBytes(token)
  {
    if |token| < 32 then false
    else if !v.printable(token) || HasSpace(token) then false
    else v.noNullBytes(token)
  }

  /** Short tokens, tokens with whitespace, and (for an honest null check) tokens with NUL are rejected. */
  lemma TokenRejects(token: string, v: Validator)
    ensures |token| < 32 ==> !ValidateTokenFormat(token, v)
    ensures (exists i :: 0 <= i < |token| && IsPcreSpace(token[i])) ==> !ValidateTokenFormat(token, v)
    ensures HonestNoNullBytes(v) && '\0' in token ==> !ValidateTokenFormat(token, v)
  {
  }

  /** A printable token of at least 32 characters with no whitespace and no NUL is accepted. */
  lemma TokenAccepts(token: string, v: Validator)
    requires HonestNoNullBytes(v) && v.printable(token)
    requires |token| >= 32 && '\0' !in token
    requires forall i :: 0 <= i < |token| ==> !IsPcreSpace(token[i])
    ensures ValidateTokenFormat(token, v)
  {
  }

  // ---------------------------------------------------------------- scopes

  /** The filter `parseScopes` applies as written: non-empty and `/^[a-z_]+$/`. */
  predicate ScopeAsWrittenOk(scope: string)
  {
    scope != [] && AnchoredPlus(scope, ScopeChar)
  }

  /** A scope name: one or more of `[a-z_]`. */
  predicate ScopeOk(scope: string)
  {
    Plus(scope, ScopeChar)
  }

  /** `array_filter` keeps the original positions as keys: the kept pieces with their indices. */
  function KeepWithKeys(pieces: seq<string>, keep: string -> bool): seq<(int, string)>
  {
    if pieces == [] then []
    else
      var init := pieces[..|pieces| - 1];
      var last := |pieces| - 1;
      KeepWithKeys(init, keep) + (if keep(pieces[last]) then [(last, pieces[last])] else [])
  }

  /** Each kept piece is paired with its own position, the pieces satisfy `keep`, and the keys increase. */
  lemma {:induction false} KeepWithKeysMeaning(pieces: seq<string>, keep: string -> bool)
    ensures forall j :: 0 <= j < |KeepWithKeys(pieces, keep)| ==>
      var e := KeepWithKeys(pieces, keep)[j];
      0 <= e.0 < |pieces| && e.1 == pieces[e.0] && keep(e.1)
    ensures forall j, k :: 0 <= j < k < |KeepWithKeys(pieces, keep)| ==>
      KeepWithKeys(pieces, keep)[j].0 < KeepWithKeys(pieces, keep)[k].0
  {
    if pieces != [] {
      var init := pieces[..|pieces| - 1];
      var last := |pieces| - 1;
      KeepWithKeysMeaning(init, keep);
      var front := KeepWithKeys(init, keep);
      var r := KeepWithKeys(pieces, keep);
      assert r == front + (if keep(pieces[last]) then [(last, pieces[last])] else []);
      forall j | 0 <= j < |front|
        ensures r[j] == front[j] && 0 <= r[j].0 < last && r[j].1 == pieces[r[j].0]
      {
        assert init[front[j].0] == pieces[front[j].0];
      }
    }
  }

  /** The keyed filter of a two-piece list. */
  lemma KeepTwo(a: string, b: string, keep: string -> bool)
    ensures KeepWithKeys([a, b], keep) == (if keep(a) then [(0, a)] else []) + (if keep(b) then [(1, b)] else [])
  {
    assert [a, b][..1] == [a];
    assert [a][..0] == [];
    assert KeepWithKeys([a], keep) == [] + (if keep(a) then [(0, a)] else []);
    assert KeepWithKeys([a, b], keep) == KeepWithKeys([a], keep) + (if keep(b) then [(1, b)] else []);
  }

  /** `parseScopes` as written: the valid pieces of `explode(' ', trim(s))`, keyed by their positions. */
  function ParseScopesAsWritten(scopeString: string): seq<(int, string)>
  {
    KeepWithKeys(Explode(' ', Trim(scopeString)), ScopeAsWrittenOk)
  }

  /** `parseScopes` returning a list as its callers and its test expect: the valid pieces, in order. */
  function ParseScopes(scopeString: string): seq<string>
  {
    Filter(Explode(' ', Trim(scopeString)), ScopeOk)
  }

  /** The parsed scopes are exactly the space-separated pieces that are scope names, in input order. */
  lemma ParseScopesMeaning(scopeString: string, x: string)
    ensures x in ParseScopes(scopeString) <==> x in Explode(' ', Trim(scopeString)) && ScopeOk(x)
    ensures forall i :: 0 <= i < |ParseScopes(scopeString)| ==>
      ParseScopes(scopeString)[i] != [] && ' ' !in ParseScopes(scopeString)[i]
  {
    FilterMembers(Explode(' ', Trim(scopeString)), ScopeOk, x);
    forall i | 0 <= i < |ParseScopes(scopeString)|
      ensures ParseScopes(scopeString)[i] != [] && ' ' !in ParseScopes(scopeString)[i]
    {
      var y := ParseScopes(scopeString)[i];
      FilterMembers(Explode(' ', Trim(scopeString)), ScopeOk, y);
      assert ScopeOk(y);
      forall j | 0 <= j < |y|
        ensures y[j] != ' '
      {
        assert ScopeChar(y[j]);
      }
    }
  }

  /** "A b" has no surrounding blanks and splits into "A" and "b". */
  lemma PiecesOfAb()
    ensures Explode(' ', Trim("A b")) == ["A", "b"]
  {
    var s := "A b";
    assert Trim(s) == s by {
      assert TrimLeft(s) == s;
      assert TrimRight(s) == s;
    }
    assert s == "A" + [' '] + "b";
    ExplodeSplit(' ', "A", "b");
    ExplodeNone(' ', "b");
  }

  /** An invalid first piece shifts every key: the first kept scope has key 1, where a list has 0. */
  lemma ParseScopesKeysNotReindexed()
    ensures ParseScopesAsWritten("A b") == [(1, "b")]
    ensures ParseScopes("A b") == ["b"]
  {
    PiecesOfAb();
    ScopeVerdicts();
    KeepTwo("A", "b", ScopeAsWrittenOk);
    FilterTwo("A", "b", ScopeOk);
  }

  /** "A" is rejected by both filters, "b" accepted by both. */
  lemma ScopeVerdicts()
    ensures !ScopeAsWrittenOk("A") && !ScopeOk("A")
    ensures ScopeAsWrittenOk("b") && ScopeOk("b")
  {
    var a: string := "A";
    assert a[0] == 'A' && !ScopeChar(a[0]) && |a| == 1;
    var b: string := "b";
    assert |b| == 1 && ScopeChar(b[0]);
    assert AllIn(b, ScopeChar);
  }

  /** A piece "a\n" (from "a\n b") passes the filter as written but is not a scope name. */
  lemma ParseScopesAcceptsNewline()
    ensures ScopeAsWrittenOk("a\n") && !ScopeOk("a\n")
  {
    assert "a\n"[..1] == "a";
    assert "a\n"[1] == '\n';
  }

  /** `hasScope`: "profile" is always granted; anything else is case-sensitive membership. */
  function HasScope(scopes: seq<string>, requiredScope: string): (ok: bool)
    ensures requiredScope == "profile" ==> ok
    ensures requiredScope != "profile" ==> (ok <==> requiredScope in scopes)
  {
    if requiredScope == "profile" then true else requiredScope in scopes
  }

  /**
   * Against parsed scopes, a request other than "profile" is granted iff it
   * is a piece of the scope string and a scope name; in particular a name
   * with an upper-case letter never is.
   */
  lemma HasParsedScope(scopeString: string, requiredScope: string)
    requires requiredScope != "profile"
    ensures HasScope(ParseScopes(scopeString), requiredScope) <==>
      requiredScope in Explode(' ', Trim(scopeString)) && ScopeOk(requiredScope)
    ensures (exists i :: 0 <= i < |requiredScope| && 'A' <= requiredScope[i] <= 'Z') ==>
      !HasScope(ParseScopes(scopeString), requiredScope)
  {
    ParseScopesMeaning(scopeString, requiredScope);
  }
}
