/** The entity tag of a saved workflow and the precondition parser that reads it back. */
module Etag {
  import opened Wrappers
  import opened CatalogTables
  import opened Decimals

  predicate Hex(text: string, size: nat) {
    |text| == size && forall i :: 0 <= i < |text| ==> HexDigit(text[i])
  }

  predicate HexDigit(c: char) {
    '0' <= c <= '9' || 'a' <= c <= 'f'
  }

  const ID_HEAD := "wfcat_"
  const TAG_HEAD := "\"sasori-wfcat-"

  /** The entity tag of one revision: identity, revision and definition digest in one quoted text. */
  function CatalogEtag(identity: string, revision: nat, digest: string): string {
    TAG_HEAD + identity + ("-r" + Decimal(revision) + "-" + digest + "\"")
  }

  datatype Tag = Tag(identity: string, revision: nat, digest: string)

  /** The full match of the tag expression: 32 hex digits, a positive decimal, 64 hex digits. */
  function Match(text: string): Option<Tag> {
    var head := |TAG_HEAD|;
    if |text| < head + 32 + 2 + 1 + 1 + 64 + 1 || text[..head] != TAG_HEAD then None
    else
      var identity, middle := text[head..head + 32], text[head + 32..];
      var digits, tail := middle[2..|middle| - 66], middle[|middle| - 66..];
      if !Hex(identity, 32) || middle[..2] != "-r" || !Digits(digits) || digits[0] == '0'
        || tail[0] != '-' || !Hex(tail[1..65], 64) || tail[65] != '"' then None
      else Some(Tag(identity, Number(digits), tail[1..65]))
  }

  datatype Precondition = Absent | Matches(revision: nat, digest: string)
  datatype RequestError =
    | Repeated | Exclusive | CreateNeedsStar | PreconditionRequired | NotTheCurrentTag | RevisionOutOfRange

  /** Reads the conditional headers of a workflow mutation. */
  function WorkflowPrecondition(catalogId: string, matches: seq<string>,
          noneMatches: seq<string>): Result<Precondition, RequestError> {
    if |matches| > 1 || |noneMatches| > 1 then Err(Repeated)
    else if matches != [] && noneMatches != [] then Err(Exclusive)
    else if noneMatches != [] then if noneMatches[0] != "*" then Err(CreateNeedsStar) else Ok(Absent)
    else if matches == [] then Err(PreconditionRequired)
    else
      match Match(matches[0])
      case None => Err(NotTheCurrentTag)
      case Some(tag) =>
        if ID_HEAD + tag.identity != catalogId then Err(NotTheCurrentTag)
        else if tag.revision > SQLITE_INT_MAX then Err(RevisionOutOfRange)
        else Ok(Matches(tag.revision, tag.digest))
  }

  lemma MatchPrinted(identity: string, revision: nat, digest: string)
    requires Hex(identity, 32) && revision > 0 && Hex(digest, 64)
    ensures Match(CatalogEtag(identity, revision, digest)) == Some(Tag(identity, revision, digest))
  {
    var text, head := CatalogEtag(identity, revision, digest), |TAG_HEAD|;
    var decimal := Decimal(revision);
    NumberOfDecimal(revision);
    var middle := "-r" + decimal + "-" + digest + "\"";
    assert text[..head] == TAG_HEAD;
    assert text[head..head + 32] == identity;
    assert text[head + 32..] == middle;
    assert middle[..2] == "-r" && middle[2..|middle| - 66] == decimal;
    var tail := middle[|middle| - 66..];
    assert tail == "-" + digest + "\"";
    assert tail[1..65] == digest;
  }

  /** A tag that matches is the tag printed from its own parts: no other text reads as that tag. */
  lemma MatchedIsPrinted(text: string)
    requires Match(text).Some?
    ensures var t := Match(text).value;
      && Hex(t.identity, 32) && t.revision > 0 && Hex(t.digest, 64)
      && text == CatalogEtag(t.identity, t.revision, t.digest)
  {
    var t, head := Match(text).value, |TAG_HEAD|;
    var middle := text[head + 32..];
    var digits, tail := middle[2..|middle| - 66], middle[|middle| - 66..];
    DecimalOfNumber(digits);
    assert tail == ['-'] + tail[1..65] + ['"'];
    assert middle == middle[..2] + digits + tail;
    assert text == text[..head] + text[head..head + 32] + middle;
    assert middle == "-r" + Decimal(t.revision) + "-" + t.digest + "\"";
  }

  /** The precondition read from a single If-Match header is accepted exactly when the header is the
      entity tag of this catalog id for some revision in range, and is then that very revision and
      digest. In particular the printed tag of another id is refused. */
  lemma PreconditionRoundTrip(catalogId: string, header: string, revision: nat, digest: string)
    ensures WorkflowPrecondition(catalogId, [header], []) == Ok(Matches(revision, digest)) <==>
      && 1 <= revision <= SQLITE_INT_MAX && Hex(digest, 64)
      && |catalogId| >= 6 && catalogId[..6] == ID_HEAD && Hex(catalogId[6..], 32)
      && header == CatalogEtag(catalogId[6..], revision, digest)
  {
    if Match(header).Some? {
      var t := Match(header).value;
      MatchedIsPrinted(header);
      assert (ID_HEAD + t.identity)[6..] == t.identity;
      assert (ID_HEAD + t.identity)[..6] == ID_HEAD;
    }
    if |catalogId| >= 6 && catalogId[..6] == ID_HEAD && Hex(catalogId[6..], 32) {
      assert catalogId == ID_HEAD + catalogId[6..];
      if 1 <= revision && Hex(digest, 64) {
        MatchPrinted(catalogId[6..], revision, digest);
      }
    }
  }
}
