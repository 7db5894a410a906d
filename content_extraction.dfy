/**
 * `EmailContentExtractor::extractContent`: pulls the HTML and plain-text
 * bodies out of a message, whatever the shape of its body.
 */
module ContentExtraction {
  import opened Php
  import opened Magento

  const HtmlType := "text/html"
  const PlainType := "text/plain"
  const NoContentMessage := "No email body content found"

  /** The exception thrown when neither body version has content. */
  const ContentMissing := MailException(NoContentMessage, None)

  /** `$bodyVersions`: the two slots, keyed by media type. */
  type Versions = map<string, string>

  const InitialVersions: Versions := map[HtmlType := "", PlainType := ""]

  /** The normalised result: each body version, or `null`. */
  datatype Content = Content(html: Option<string>, text: Option<string>)

  predicate IsTextType(t: string) {
    t == HtmlType || t == PlainType
  }

  /** One step of the loop over parts: a text part overwrites the slot of its type. */
  function Record(v: Versions, p: Part): Versions {
    if IsTextType(p.partType) then v[p.partType := p.rawContent] else v
  }

  /** The slots after the loop has visited every part, in order. */
  function FoldParts(parts: seq<Part>): (v: Versions)
    ensures v.Keys == {HtmlType, PlainType}
  {
    if parts == [] then InitialVersions
    else Record(FoldParts(parts[..|parts| - 1]), parts[|parts| - 1])
  }

  /** The slots after the dispatch on the body's shape. */
  function BodyVersions(body: Body): (v: Versions)
    ensures v.Keys == {HtmlType, PlainType}
  {
    match body
    case Multipart(parts) => FoldParts(parts)
    case TextPart(subtype, content) =>
      if subtype == "html" then InitialVersions[HtmlType := content]
      else InitialVersions[PlainType := content]
    case OtherBody(s) => InitialVersions[PlainType := s]
  }

  /**
   * What `extractContent` returns or throws. On success each field is null
   * exactly when its slot is falsy and otherwise holds the slot unchanged.
   */
  function Extract(body: Body): (r: Result<Content>)
    ensures r.Failure? <==>
      !Truthy(BodyVersions(body)[HtmlType]) && !Truthy(BodyVersions(body)[PlainType])
    ensures r.Failure? ==> r.error == ContentMissing
    ensures r.Success? ==> TruthyOpt(r.value.html) || TruthyOpt(r.value.text)
    ensures r.Success? ==>
      (r.value.html.Some? <==> Truthy(BodyVersions(body)[HtmlType])) &&
      (r.value.html.Some? ==> r.value.html.value == BodyVersions(body)[HtmlType]) &&
      (r.value.text.Some? <==> Truthy(BodyVersions(body)[PlainType])) &&
      (r.value.text.Some? ==> r.value.text.value == BodyVersions(body)[PlainType])
  {
    var v := BodyVersions(body);
    if !Truthy(v[HtmlType]) && !Truthy(v[PlainType]) then Failure(ContentMissing)
    else Success(Content(OrNull(v[HtmlType]), OrNull(v[PlainType])))
  }

  /** `extractContent($message)`. */
  method ExtractContent(message: Message) returns (r: Result<Content>)
    ensures r == Extract(message.body)
  {
    var versions := InitialVersions;
    var body := message.body;
    match body {
      case Multipart(parts) =>
        var i := 0;
        while i < |parts|
          invariant 0 <= i <= |parts|
          invariant versions == FoldParts(parts[..i])
        {
          var part := parts[i];
          if part.partType == HtmlType || part.partType == PlainType {
            versions := versions[part.partType := part.rawContent];
          }
          assert parts[..i + 1][..i] == parts[..i];
          i := i + 1;
        }
        assert parts[..|parts|] == parts;
      case TextPart(subtype, content) =>
        if subtype == "html" {
          versions := versions[HtmlType := content];
        } else {
          versions := versions[PlainType := content];
        }
      case OtherBody(s) =>
        versions := versions[PlainType := s];
    }
    if !Truthy(versions[HtmlType]) && !Truthy(versions[PlainType]) {
      return Failure(ContentMissing);
    }
    r := Success(Content(OrNull(versions[HtmlType]), OrNull(versions[PlainType])));
  }

  /** The parts of a multipart body whose type is exactly one of the two text types. */
  function TextParts(parts: seq<Part>): (ts: seq<Part>)
    ensures forall p :: p in ts ==> p in parts && IsTextType(p.partType)
  {
    if parts == [] then []
    else
      var last := parts[|parts| - 1];
      TextParts(parts[..|parts| - 1]) + (if IsTextType(last.partType) then [last] else [])
  }

  /** A part whose type is not exactly `text/html` or `text/plain` contributes nothing. */
  lemma {:induction false} OnlyTextPartsContribute(parts: seq<Part>)
    ensures FoldParts(parts) == FoldParts(TextParts(parts))
  {
    if parts != [] {
      var pre, last := parts[..|parts| - 1], parts[|parts| - 1];
      OnlyTextPartsContribute(pre);
      assert FoldParts(parts) == Record(FoldParts(TextParts(pre)), last);
      if IsTextType(last.partType) {
        var ts := TextParts(pre) + [last];
        assert TextParts(parts) == ts;
        assert ts[..|ts| - 1] == TextParts(pre);
        assert FoldParts(ts) == Record(FoldParts(TextParts(pre)), last);
      } else {
        assert TextParts(parts) == TextParts(pre);
      }
    }
  }

  /** With several parts of one text type, the last of them fills that slot. */
  lemma {:induction false} LastPartWins(parts: seq<Part>, i: nat)
    requires i < |parts| && IsTextType(parts[i].partType)
    requires forall j :: i < j < |parts| ==> parts[j].partType != parts[i].partType
    ensures FoldParts(parts)[parts[i].partType] == parts[i].rawContent
  {
    if i < |parts| - 1 {
      LastPartWins(parts[..|parts| - 1], i);
    }
  }

  /** A slot whose type no part declares stays empty. */
  lemma {:induction false} UnmatchedSlotStaysEmpty(parts: seq<Part>, t: string)
    requires IsTextType(t)
    requires forall j :: 0 <= j < |parts| ==> parts[j].partType != t
    ensures FoldParts(parts)[t] == ""
  {
    if parts != [] {
      UnmatchedSlotStaysEmpty(parts[..|parts| - 1], t);
    }
  }

  /** A multipart body without a `text/html` or `text/plain` part always fails. */
  lemma MultipartWithoutTextPartFails(parts: seq<Part>)
    requires forall j :: 0 <= j < |parts| ==> !IsTextType(parts[j].partType)
    ensures Extract(Multipart(parts)) == Failure(ContentMissing)
  {
    UnmatchedSlotStaysEmpty(parts, HtmlType);
    UnmatchedSlotStaysEmpty(parts, PlainType);
  }

  /**
   * In a multipart body, the field of a text type is the raw content of the
   * last part of that type when that content is truthy, and null otherwise.
   */
  lemma MultipartFieldIsLastPart(parts: seq<Part>, i: nat)
    requires i < |parts| && IsTextType(parts[i].partType)
    requires forall j :: i < j < |parts| ==> parts[j].partType != parts[i].partType
    requires Extract(Multipart(parts)).Success?
    ensures var c := Extract(Multipart(parts)).value;
      (if parts[i].partType == HtmlType then c.html else c.text) ==
      (if Truthy(parts[i].rawContent) then Some(parts[i].rawContent) else None)
  {
    LastPartWins(parts, i);
  }

  /** A single text part fills the html field iff its subtype is exactly "html"; the other field stays null. */
  lemma TextPartExtraction(subtype: string, content: string)
    ensures Extract(TextPart(subtype, content)) ==
      if !Truthy(content) then Failure(ContentMissing)
      else if subtype == "html" then Success(Content(Some(content), None))
      else Success(Content(None, Some(content)))
  {
  }

  /** Any other body is taken by its string form as the text version. */
  lemma OtherBodyExtraction(s: string)
    ensures Extract(OtherBody(s)) ==
      if Truthy(s) then Success(Content(None, Some(s))) else Failure(ContentMissing)
  {
  }

  /** An html part "A" and a plain part "B" give `{html: "A", text: "B"}`. */
  lemma HtmlAndPlainParts(a: string, b: string)
    requires Truthy(a) && Truthy(b)
    ensures Extract(Multipart([Part(HtmlType, a), Part(PlainType, b)])) ==
      Success(Content(Some(a), Some(b)))
  {
    var parts := [Part(HtmlType, a), Part(PlainType, b)];
    LastPartWins(parts, 0);
    LastPartWins(parts, 1);
  }
}
