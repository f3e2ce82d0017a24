/**
 * `XCOFFValidator` (tools/xcoff_tool/core.py): classifies a file from its
 * first 20 bytes as an ar archive, a 32-bit or a 64-bit XCOFF object, and
 * applies sanity bounds to the decoded XCOFF file header.
 *
 * The file system is an input: a probe says whether the file exists, is
 * readable, and what bytes it holds (or that reading it fails).
 */
module Validator {
  import opened Text

  const Magic32: nat := 0x01DF
  const Magic64: nat := 0x01F7
  /** "!<arch>\n" */
  const ArMagic: seq<byte> := [0x21, 0x3C, 0x61, 0x72, 0x63, 0x68, 0x3E, 0x0A]
  const HeaderSize: nat := 20

  const MaxSections: nat := 1000
  const MaxOptionalHeader: nat := 1024

  datatype FileProbe =
    | Missing
    | Unreadable
    | Readable(contents: seq<byte>)
    | ReadFails(size: nat, message: string)  // the size is known, the read raises IOError

  datatype Details =
    | NoDetails
    | SizeDetails(fileSize: nat)
    | MagicDetails(magicValue: nat, fileSize: nat)
    | HeaderDetails(
        magic: string, sections: nat, timestamp: nat, symbolTableOffset: nat,
        symbolCount: nat, optionalHeaderSize: nat, flags: string, fileSize: nat)

  datatype ValidationResult = ValidationResult(
    valid: bool, fileType: Option<string>, error: Option<string>, details: Details)

  /** The 32-bit XCOFF file header, `struct.unpack(">HHIIIHH", header)`. */
  datatype FileHeader = FileHeader(
    magic: nat, nscns: nat, timdat: nat, symptr: nat, nsyms: nat, opthdr: nat, flags: nat)

  // ---------------------------------------------------------------------
  // Big-endian header layout
  // ---------------------------------------------------------------------

  function U16(b: seq<byte>, at: nat): (v: nat)
    requires at + 2 <= |b|
    ensures v < 0x1_0000
  {
    b[at] as nat * 256 + b[at + 1] as nat
  }

  function U32(b: seq<byte>, at: nat): (v: nat)
    requires at + 4 <= |b|
    ensures v < 0x1_0000_0000
  {
    U16(b, at) * 0x1_0000 + U16(b, at + 2)
  }

  function DecodeHeader(h: seq<byte>): FileHeader
    requires |h| == HeaderSize
  {
    FileHeader(U16(h, 0), U16(h, 2), U32(h, 4), U32(h, 8), U32(h, 12), U16(h, 16), U16(h, 18))
  }

  predicate FieldsFit(h: FileHeader) {
    h.magic < 0x1_0000 && h.nscns < 0x1_0000 && h.timdat < 0x1_0000_0000
    && h.symptr < 0x1_0000_0000 && h.nsyms < 0x1_0000_0000
    && h.opthdr < 0x1_0000 && h.flags < 0x1_0000
  }

  function EncodeU16(v: nat): (r: seq<byte>)
    requires v < 0x1_0000
    ensures |r| == 2 && U16(r, 0) == v
  {
    [(v / 256) as byte, (v % 256) as byte]
  }

  function EncodeU32(v: nat): (r: seq<byte>)
    requires v < 0x1_0000_0000
    ensures |r| == 4
  {
    EncodeU16(v / 0x1_0000) + EncodeU16(v % 0x1_0000)
  }

  /** The header as the 20 bytes an XCOFF writer lays down. */
  function EncodeHeader(h: FileHeader): (r: seq<byte>)
    requires FieldsFit(h)
    ensures |r| == HeaderSize
  {
    EncodeU16(h.magic) + EncodeU16(h.nscns) + EncodeU32(h.timdat) + EncodeU32(h.symptr)
    + EncodeU32(h.nsyms) + EncodeU16(h.opthdr) + EncodeU16(h.flags)
  }

  lemma U32OfEncode(v: nat, b: seq<byte>, at: nat)
    requires v < 0x1_0000_0000 && at + 4 <= |b| && b[at..at + 4] == EncodeU32(v)
    ensures U32(b, at) == v
  {
    var e := EncodeU32(v);
    assert U16(b, at) == U16(e, 0) && U16(b, at + 2) == U16(e, 2);
    assert e[..2] == EncodeU16(v / 0x1_0000) && e[2..] == EncodeU16(v % 0x1_0000);
    assert U16(e, 2) == U16(e[2..], 0);
  }

  lemma U16OfEncode(v: nat, b: seq<byte>, at: nat)
    requires v < 0x1_0000 && at + 2 <= |b| && b[at..at + 2] == EncodeU16(v)
    ensures U16(b, at) == v
  {
    assert b[at] == b[at..at + 2][0] && b[at + 1] == b[at..at + 2][1];
  }

  /** Decoding what was encoded gives back every field. */
  lemma DecodeEncode(h: FileHeader)
    requires FieldsFit(h)
    ensures DecodeHeader(EncodeHeader(h)) == h
  {
    var b := EncodeHeader(h);
    assert b[0..2] == EncodeU16(h.magic);
    assert b[2..4] == EncodeU16(h.nscns);
    assert b[4..8] == EncodeU32(h.timdat);
    assert b[8..12] == EncodeU32(h.symptr);
    assert b[12..16] == EncodeU32(h.nsyms);
    assert b[16..18] == EncodeU16(h.opthdr);
    assert b[18..20] == EncodeU16(h.flags);
    U16OfEncode(h.magic, b, 0);
    U16OfEncode(h.nscns, b, 2);
    U32OfEncode(h.timdat, b, 4);
    U32OfEncode(h.symptr, b, 8);
    U32OfEncode(h.nsyms, b, 12);
    U16OfEncode(h.opthdr, b, 16);
    U16OfEncode(h.flags, b, 18);
  }

  // ---------------------------------------------------------------------
  // Sanity bounds
  // ---------------------------------------------------------------------

  /** The bounds `_validate_xcoff` accepts. */
  predicate Sane(h: FileHeader, fileSize: nat) {
    h.nscns <= MaxSections && (h.symptr == 0 || h.symptr <= fileSize) && h.opthdr <= MaxOptionalHeader
  }

  /** The failure messages, in the order the checks run. */
  function Problems(h: FileHeader, fileSize: nat): (r: seq<string>)
    ensures r == [] <==> Sane(h, fileSize)
    ensures h.nscns > MaxSections ==> r[0] == "Suspicious section count: " + NatToString(h.nscns)
    ensures h.opthdr > MaxOptionalHeader ==> r[|r| - 1] == "Suspicious optional header size: " + NatToString(h.opthdr)
  {
    (if h.nscns > MaxSections then ["Suspicious section count: " + NatToString(h.nscns)] else [])
    + (if h.symptr > 0 && h.symptr > fileSize then ["Symbol table offset beyond file size"] else [])
    + (if h.opthdr > MaxOptionalHeader then ["Suspicious optional header size: " + NatToString(h.opthdr)] else [])
  }

  function HeaderDetailsOf(h: FileHeader, fileSize: nat): Details {
    HeaderDetails(Hex4(h.magic), h.nscns, h.timdat, h.symptr, h.nsyms, h.opthdr, Hex4(h.flags), fileSize)
  }

  /** `_validate_xcoff`: the 64-bit path uses this same 20-byte layout. */
  function ValidateXcoff(header: seq<byte>, fileSize: nat, fileType: string): (r: ValidationResult)
    requires |header| == HeaderSize
    ensures r.valid <==> Sane(DecodeHeader(header), fileSize)
    ensures r.fileType == Some(fileType)
    ensures r.valid <==> r.error.None?
    ensures !r.valid ==> r.error == Some(Join(Problems(DecodeHeader(header), fileSize), "; "))
    ensures r.details == HeaderDetailsOf(DecodeHeader(header), fileSize)
  {
    var h := DecodeHeader(header);
    var errors := Problems(h, fileSize);
    if errors != [] then ValidationResult(false, Some(fileType), Some(Join(errors, "; ")), HeaderDetailsOf(h, fileSize))
    else ValidationResult(true, Some(fileType), None, HeaderDetailsOf(h, fileSize))
  }

  /** `XCOFFValidator.validate` */
  function Validate(path: string, probe: FileProbe): (r: ValidationResult)
    ensures probe.Missing? ==> !r.valid && r.error == Some("File not found: " + path)
    ensures probe.Unreadable? ==> !r.valid && r.error == Some("File not readable: " + path)
    ensures probe.Readable? && |probe.contents| < HeaderSize ==>
      r == ValidationResult(false, None, Some("File too small: " + NatToString(|probe.contents|) + " bytes"),
                            SizeDetails(|probe.contents|))
    ensures probe.ReadFails? ==> !r.valid && r.fileType.None?
    ensures probe.Readable? && |probe.contents| >= HeaderSize && probe.contents[..8] == ArMagic ==>
      r == ValidationResult(true, Some("archive"), None, SizeDetails(|probe.contents|))
    ensures probe.Readable? && |probe.contents| >= HeaderSize && probe.contents[..8] != ArMagic ==>
      var magic := U16(probe.contents, 0);
      var header := DecodeHeader(probe.contents[..HeaderSize]);
      && (magic == Magic32 ==> r.fileType == Some("xcoff32") && (r.valid <==> Sane(header, |probe.contents|)))
      && (magic == Magic64 ==> r.fileType == Some("xcoff64") && (r.valid <==> Sane(header, |probe.contents|)))
      && (magic != Magic32 && magic != Magic64 ==>
            r == ValidationResult(false, None, Some("Invalid magic: " + Hex4(magic)), MagicDetails(magic, |probe.contents|)))
    ensures r.valid ==> r.fileType in {Some("archive"), Some("xcoff32"), Some("xcoff64")}
  {
    match probe
    case Missing => ValidationResult(false, None, Some("File not found: " + path), NoDetails)
    case Unreadable => ValidationResult(false, None, Some("File not readable: " + path), NoDetails)
    case ReadFails(size, message) =>
      if size < HeaderSize then
        ValidationResult(false, None, Some("File too small: " + NatToString(size) + " bytes"), SizeDetails(size))
      else ValidationResult(false, None, Some("I/O error: " + message), NoDetails)
    case Readable(contents) =>
      var size := |contents|;
      if size < HeaderSize then
        ValidationResult(false, None, Some("File too small: " + NatToString(size) + " bytes"), SizeDetails(size))
      else
        var header := contents[..HeaderSize];
        if header[..8] == ArMagic then ValidationResult(true, Some("archive"), None, SizeDetails(size))
        else
          var magic := U16(header, 0);
          if magic == Magic32 then ValidateXcoff(header, size, "xcoff32")
          else if magic == Magic64 then ValidateXcoff(header, size, "xcoff64")
          else ValidationResult(false, None, Some("Invalid magic: " + Hex4(magic)), MagicDetails(magic, size))
  }

  /** The archive test runs first, but no archive could be mistaken for XCOFF:
      "!<" read as a big-endian magic is 0x213C. */
  lemma ArchiveIsNotXcoff(contents: seq<byte>)
    requires |contents| >= HeaderSize && contents[..8] == ArMagic
    ensures U16(contents, 0) != Magic32 && U16(contents, 0) != Magic64
  {
    assert contents[0] == ArMagic[0] && contents[1] == ArMagic[1];
  }
}
