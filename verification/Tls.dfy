/** How the controller's certificate is judged. */
module Tls {
  import opened Wrappers
  import Fingerprint
  import opened Config

  /** The three ways of judging a certificate, in order of preference. */
  datatype Mode = Pinned(expected: seq<string>) | AcceptAny | WebPki

  /** Normalises every pin; the first unreadable one is the error. */
  function NormalizeAll(pins: seq<string>): Result<seq<string>, nat> {
    if pins == [] then Ok([])
    else
      match Fingerprint.NormalizeFingerprint(pins[0])
      case Err(e) => Err(e)
      case Ok(h) =>
        match NormalizeAll(pins[1..])
        case Err(e) => Err(e)
        case Ok(rest) => Ok([h] + rest)
  }

  function ClientConfig(cfg: TlsConfig): Result<Mode, nat> {
    match cfg.fingerprints
    case Some(raw) =>
      (match NormalizeAll(raw)
       case Err(e) => Err(e)
       case Ok(expected) => Ok(Pinned(expected)))
    case None => if cfg.insecureSkipVerify then Ok(AcceptAny) else Ok(WebPki)
  }

  /** The pinned verifier: the presented certificate's digest, in hex, must be listed. */
  predicate PinnedAccepts(expected: seq<string>, digest: seq<byte>) {
    Fingerprint.HexEncode(digest) in expected
  }

  lemma {:induction false} NormalizeAllValue(pins: seq<string>)
    ensures NormalizeAll(pins).Ok? <==> AllPinsReadable(pins)
    ensures NormalizeAll(pins).Ok? ==> |NormalizeAll(pins).value| == |pins|
    ensures NormalizeAll(pins).Ok? ==>
              forall i :: 0 <= i < |pins| ==>
                Fingerprint.NormalizeFingerprint(pins[i]) == Ok(NormalizeAll(pins).value[i])
                && Fingerprint.IsPin(NormalizeAll(pins).value[i])
  {
    if pins != [] {
      NormalizeAllValue(pins[1..]);
      Fingerprint.NormalizedIsPin(pins[0]);
      assert pins == [pins[0]] + pins[1..];
    }
  }

  /** A validated configuration always builds: its pins, when given, become a non-empty list of
      canonical pins, and no certificate goes unchecked unless that was asked for. */
  lemma ValidatedConfigBuildsTls(cfg: Config)
    requires Validate(cfg).Ok?
    ensures ClientConfig(cfg.controller.tls).Ok?
    ensures var mode := ClientConfig(cfg.controller.tls).value;
            && (cfg.controller.tls.fingerprints.Some? <==> mode.Pinned?)
            && (mode.Pinned? ==> mode.expected != [])
            && (mode.Pinned? ==> forall i :: 0 <= i < |mode.expected| ==> Fingerprint.IsPin(mode.expected[i]))
            && (mode.AcceptAny? <==> cfg.controller.tls.insecureSkipVerify)
  {
    match cfg.controller.tls.fingerprints
    case Some(raw) => NormalizeAllValue(raw);
    case None =>
  }

  /** The pins as digests. */
  ghost predicate IsPinnedDigest(expected: seq<string>, digest: seq<byte>) {
    exists i :: 0 <= i < |expected| && Fingerprint.IsPin(expected[i]) && Fingerprint.HexDecode(expected[i]) == digest
  }

  /** Comparing lower-case hex texts is comparing digests. */
  lemma AcceptedDigestIsPinned(expected: seq<string>, digest: seq<byte>)
    requires forall i :: 0 <= i < |expected| ==> Fingerprint.IsPin(expected[i])
    ensures PinnedAccepts(expected, digest) <==> IsPinnedDigest(expected, digest)
  {
    Fingerprint.HexDecodeEncode(digest);
    if PinnedAccepts(expected, digest) {
      var i :| 0 <= i < |expected| && expected[i] == Fingerprint.HexEncode(digest);
      assert Fingerprint.HexDecode(expected[i]) == digest;
    }
    if i :| 0 <= i < |expected| && Fingerprint.HexDecode(expected[i]) == digest {
      Fingerprint.HexEncodeDecode(expected[i]);
    }
  }

  /** A certificate is accepted exactly when its digest is one of those the operator wrote, however they were spelled. */
  lemma PinnedAcceptsExactlyThePins(raw: seq<string>, digest: seq<byte>)
    requires NormalizeAll(raw).Ok?
    ensures PinnedAccepts(NormalizeAll(raw).value, digest) <==>
            exists i :: 0 <= i < |raw| && Fingerprint.NormalizeFingerprint(raw[i]) == Ok(Fingerprint.HexEncode(digest))
    ensures PinnedAccepts(NormalizeAll(raw).value, digest) <==> IsPinnedDigest(NormalizeAll(raw).value, digest)
  {
    var expected, h := NormalizeAll(raw).value, Fingerprint.HexEncode(digest);
    NormalizeAllValue(raw);
    AcceptedDigestIsPinned(expected, digest);
    if i :| 0 <= i < |expected| && expected[i] == h {
      assert Fingerprint.NormalizeFingerprint(raw[i]) == Ok(h);
    }
    if i :| 0 <= i < |raw| && Fingerprint.NormalizeFingerprint(raw[i]) == Ok(h) {
      assert expected[i] == h;
    }
  }
}
