/**
 * Explanation builder: a scan-result record is turned into a short list of
 * fixed English sentences — the verdict, then the file type, then the two
 * suspicious-API sentences, then the detection count — which are joined by
 * single spaces.
 */
module ExplanationEngine {
  import opened Wrappers
  import opened Text

  /**
   * The fields of the scan-result record that the builder reads.
   * `malicious` is the truthiness of the "malicious" key (absent reads as false);
   * `fileType` is None when the key is absent or None;
   * `suspiciousApis` is the "suspicious_apis" list, empty when the key is absent;
   * `detections` is None when the key is absent or None.
   */
  datatype ScanResult = ScanResult(
    malicious: bool,
    fileType: Option<string>,
    suspiciousApis: seq<string>,
    detections: Option<int>)

  const FlaggedSentence: string := "This file is flagged as malicious based on security analysis."
  const CleanSentence: string := "No known malware signatures were detected in this file."
  const InjectionSentence: string :=
    "It attempts to inject code into another process, a technique often used by trojans or spyware."
  const MemoryWriteSentence: string :=
    "It tries to modify the memory of another running process, which is a high-risk behavior."

  const FileTypePrefix: string := "The file type is '"
  const AbusedTail: string := "', which is commonly abused by malware authors."
  const PlainTail: string := "'."
  const DetectionPrefix: string := "The file was detected by "
  const DetectionTail: string := " security engines."

  /** File types named as commonly abused by malware authors. */
  const AbusedFileTypes: seq<string> := ["exe", "dll", "js", "bat"]

  /** The API whose presence signals code injection. */
  const InjectionApi: string := "CreateRemoteThread"
  /** The API whose presence signals writes to another process's memory. */
  const MemoryWriteApi: string := "WriteProcessMemory"

  /** The file type is truthy: present and not the empty string. */
  predicate HasFileType(scan: ScanResult)
  {
    scan.fileType.Some? && scan.fileType.value != ""
  }

  /** The detection count is present and positive. */
  predicate HasDetections(scan: ScanResult)
  {
    scan.detections.Some? && scan.detections.value > 0
  }

  /** Some sentence beyond the verdict is triggered. */
  predicate HasOptionalSentence(scan: ScanResult)
  {
    HasFileType(scan) || InjectionApi in scan.suspiciousApis
    || MemoryWriteApi in scan.suspiciousApis || HasDetections(scan)
  }

  function VerdictSentence(malicious: bool): string
  {
    if malicious then FlaggedSentence else CleanSentence
  }

  /** The file-type sentence for a truthy file type. */
  function FileTypeSentence(fileType: string): string
  {
    FileTypePrefix + fileType + (if fileType in AbusedFileTypes then AbusedTail else PlainTail)
  }

  /** The detection-count sentence for a positive count `n`. */
  function DetectionSentence(n: nat): string
  {
    DetectionPrefix + NatToDecimal(n) + DetectionTail
  }

  /**
   * The file-type sentence names the type after the fixed prefix and carries the
   * "commonly abused" wording exactly when the type is exe, dll, js or bat.
   */
  lemma FileTypeSentenceWording(fileType: string)
    ensures StartsWith(FileTypeSentence(fileType), FileTypePrefix)
    ensures FileTypeSentence(fileType)[|FileTypePrefix|..|FileTypePrefix| + |fileType|] == fileType
    ensures EndsWith(FileTypeSentence(fileType), AbusedTail) <==> fileType in AbusedFileTypes
    ensures fileType !in AbusedFileTypes ==> EndsWith(FileTypeSentence(fileType), PlainTail)
    ensures |FileTypeSentence(fileType)| ==
              |FileTypePrefix| + |fileType| + (if fileType in AbusedFileTypes then |AbusedTail| else |PlainTail|)
  {
    var r := FileTypeSentence(fileType);
    assert r[..|FileTypePrefix|] == FileTypePrefix;
    assert r[|FileTypePrefix|..|FileTypePrefix| + |fileType|] == fileType;
    if fileType in AbusedFileTypes {
      assert r[|r| - |AbusedTail|..] == AbusedTail;
    } else {
      assert r[|r| - 2] == '\'';
      assert r[|r| - |PlainTail|..] == PlainTail;
    }
  }

  /** The detection sentence carries the count in decimal between its fixed prefix and tail. */
  lemma DetectionSentenceWording(n: nat)
    ensures StartsWith(DetectionSentence(n), DetectionPrefix)
    ensures EndsWith(DetectionSentence(n), DetectionTail)
    ensures var r := DetectionSentence(n);
            IsDigits(r[|DetectionPrefix|..|r| - |DetectionTail|])
            && DecimalValue(r[|DetectionPrefix|..|r| - |DetectionTail|]) == n
            && (|r[|DetectionPrefix|..|r| - |DetectionTail|]| > 1 ==>
                  r[|DetectionPrefix|..|r| - |DetectionTail|][0] != '0')
  {
    var digits := NatToDecimal(n);
    var r := DetectionSentence(n);
    assert r[..|DetectionPrefix|] == DetectionPrefix;
    assert r[|r| - |DetectionTail|..] == DetectionTail;
    assert r[|DetectionPrefix|..|r| - |DetectionTail|] == digits;
    NatToDecimalRoundTrip(n);
  }

  /** The file-type sentence, when the file type is truthy. */
  function FileTypePart(scan: ScanResult): seq<string>
  {
    if HasFileType(scan) then [FileTypeSentence(scan.fileType.value)] else []
  }

  /** The code-injection sentence, when CreateRemoteThread is among the APIs. */
  function InjectionPart(scan: ScanResult): seq<string>
  {
    if InjectionApi in scan.suspiciousApis then [InjectionSentence] else []
  }

  /** The memory-write sentence, when WriteProcessMemory is among the APIs. */
  function MemoryWritePart(scan: ScanResult): seq<string>
  {
    if MemoryWriteApi in scan.suspiciousApis then [MemoryWriteSentence] else []
  }

  /** The detection-count sentence, when the count is present and positive. */
  function DetectionPart(scan: ScanResult): seq<string>
  {
    if HasDetections(scan) then [DetectionSentence(scan.detections.value)] else []
  }

  /**
   * The sentences the builder produces, in order: the verdict, then each
   * optional sentence whose condition holds.
   */
  function Sentences(scan: ScanResult): seq<string>
  {
    [VerdictSentence(scan.malicious)] + FileTypePart(scan) + InjectionPart(scan)
    + MemoryWritePart(scan) + DetectionPart(scan)
  }

  /** `explain(scan_result)`: grows the list of explanations and joins it with spaces. */
  method Explain(scan: ScanResult) returns (text: string)
    ensures text == Join(Sentences(scan))
  {
    var explanations: seq<string> := [];

    if scan.malicious {
      explanations := explanations + [FlaggedSentence];
    } else {
      explanations := explanations + [CleanSentence];
    }
    assert explanations == [VerdictSentence(scan.malicious)];

    var fileType := scan.fileType;
    if fileType.Some? && fileType.value != "" {
      explanations := explanations + [FileTypeSentence(fileType.value)];
    }
    assert explanations == [VerdictSentence(scan.malicious)] + FileTypePart(scan);

    var suspiciousApis := scan.suspiciousApis;
    if InjectionApi in suspiciousApis {
      explanations := explanations + [InjectionSentence];
    }
    assert explanations == [VerdictSentence(scan.malicious)] + FileTypePart(scan) + InjectionPart(scan);
    if MemoryWriteApi in suspiciousApis {
      explanations := explanations + [MemoryWriteSentence];
    }
    assert explanations == [VerdictSentence(scan.malicious)] + FileTypePart(scan) + InjectionPart(scan)
                           + MemoryWritePart(scan);

    var detections := scan.detections;
    if detections.Some? && detections.value > 0 {
      explanations := explanations + [DetectionSentence(detections.value)];
    }
    assert explanations == Sentences(scan);

    text := Join(explanations);
  }

  /** Which of the five sentence slots a sentence fills, read off its wording. */
  datatype Kind = Verdict | FileType | Injection | MemoryWrite | Detections | Other

  function KindOf(sentence: string): Kind
  {
    if sentence == FlaggedSentence || sentence == CleanSentence then Verdict
    else if sentence == InjectionSentence then Injection
    else if sentence == MemoryWriteSentence then MemoryWrite
    else if StartsWith(sentence, FileTypePrefix) then FileType
    else if StartsWith(sentence, DetectionPrefix) then Detections
    else Other
  }

  /** Position of each slot in the fixed order. */
  function Rank(k: Kind): nat
  {
    match k
    case Verdict => 0
    case FileType => 1
    case Injection => 2
    case MemoryWrite => 3
    case Detections => 4
    case Other => 5
  }

  /*
   * The sentences are told apart by their last characters ("is." for the
   * flagged verdict, "le." for the clean one, "re." and "or." for the two API
   * sentences, "rs." or "'." for a file type, "es." for a detection count)
   * and the two variable ones by the tenth character of their prefixes.
   */

  /** The fixed sentences are recognised as the slots they are emitted for. */
  lemma KindsOfFixedSentences(malicious: bool)
    ensures KindOf(VerdictSentence(malicious)) == Verdict
    ensures KindOf(InjectionSentence) == Injection
    ensures KindOf(MemoryWriteSentence) == MemoryWrite
  {
    assert |FlaggedSentence| == 61 && |CleanSentence| == 55;
    assert |InjectionSentence| == 94 && |MemoryWriteSentence| == 88;
  }

  /** A sentence shaped like a file-type sentence is recognised as the file-type slot. */
  lemma KindOfFileTypeShape(f: string)
    requires StartsWith(f, FileTypePrefix)
    requires EndsWith(f, AbusedTail) || EndsWith(f, PlainTail)
    ensures KindOf(f) == FileType
  {
    if EndsWith(f, AbusedTail) {
      assert f[|f| - 3] == AbusedTail[|AbusedTail| - 3] == 'r';
      assert f[|f| - 2] == AbusedTail[|AbusedTail| - 2] == 's';
    } else {
      assert f[|f| - 2] == PlainTail[0] == '\'';
    }
    assert FlaggedSentence[58] == 'i' && CleanSentence[53] == 'e';
    assert InjectionSentence[92] == 'e' && MemoryWriteSentence[86] == 'r';
  }

  /** A sentence shaped like a detection sentence is recognised as the detection slot. */
  lemma KindOfDetectionShape(d: string)
    requires StartsWith(d, DetectionPrefix) && EndsWith(d, DetectionTail)
    ensures KindOf(d) == Detections
  {
    assert d[|d| - 3] == DetectionTail[|DetectionTail| - 3] == 'e';
    assert d[|d| - 2] == DetectionTail[|DetectionTail| - 2] == 's';
    assert FlaggedSentence[58] == 'i' && CleanSentence[53] == 'e';
    assert InjectionSentence[92] == 'e' && MemoryWriteSentence[86] == 'r';
    assert !StartsWith(d, FileTypePrefix) by {
      assert d[9] == DetectionPrefix[9] == 'w';
      assert FileTypePrefix[9] == 't';
    }
  }

  /** The two sentences that carry a field's value are recognised as their slots. */
  lemma KindsOfVariableSentences(fileType: string, n: nat)
    ensures KindOf(FileTypeSentence(fileType)) == FileType
    ensures KindOf(DetectionSentence(n)) == Detections
  {
    FileTypeSentenceWording(fileType);
    KindOfFileTypeShape(FileTypeSentence(fileType));
    DetectionSentenceWording(n);
    KindOfDetectionShape(DetectionSentence(n));
  }

  /** The slot of each sentence in a list, position by position. */
  function KindsOf(sentences: seq<string>): (kinds: seq<Kind>)
    ensures |kinds| == |sentences|
    ensures forall i :: 0 <= i < |sentences| ==> kinds[i] == KindOf(sentences[i])
  {
    seq(|sentences|, i requires 0 <= i < |sentences| => KindOf(sentences[i]))
  }

  /**
   * The slots filled, in order: always the verdict, then the file type, the
   * code-injection sentence, the memory-write sentence and the detection count,
   * each exactly when its condition holds.
   */
  lemma SentenceKinds(scan: ScanResult)
    ensures KindsOf(Sentences(scan)) ==
              [Verdict]
              + (if HasFileType(scan) then [FileType] else [])
              + (if InjectionApi in scan.suspiciousApis then [Injection] else [])
              + (if MemoryWriteApi in scan.suspiciousApis then [MemoryWrite] else [])
              + (if HasDetections(scan) then [Detections] else [])
  {
    var n := if HasDetections(scan) then scan.detections.value else 0;
    var t := if HasFileType(scan) then scan.fileType.value else "";
    KindsOfFixedSentences(scan.malicious);
    KindsOfVariableSentences(t, n);
    var ss := Sentences(scan);
    var a := [VerdictSentence(scan.malicious)];
    var b := a + FileTypePart(scan);
    var c := b + InjectionPart(scan);
    var d := c + MemoryWritePart(scan);
    assert KindsOf(b) == [Verdict] + (if HasFileType(scan) then [FileType] else []);
    assert KindsOf(c) == KindsOf(b) + (if InjectionApi in scan.suspiciousApis then [Injection] else []);
    assert KindsOf(d) == KindsOf(c) + (if MemoryWriteApi in scan.suspiciousApis then [MemoryWrite] else []);
    assert KindsOf(ss) == KindsOf(d) + (if HasDetections(scan) then [Detections] else []);
  }

  /** Slot ranks strictly increase along `kinds`. */
  predicate Rising(kinds: seq<Kind>)
  {
    forall i, j :: 0 <= i < j < |kinds| ==> Rank(kinds[i]) < Rank(kinds[j])
  }

  /** Every slot in `kinds` ranks at most `r`. */
  predicate RanksAtMost(kinds: seq<Kind>, r: nat)
  {
    forall i :: 0 <= i < |kinds| ==> Rank(kinds[i]) <= r
  }

  /** Appending (or not) a slot ranked above every slot so far keeps the list rising. */
  lemma RisingExtend(kinds: seq<Kind>, k: Kind, present: bool)
    requires Rising(kinds) && Rank(k) > 0 && RanksAtMost(kinds, Rank(k) - 1)
    ensures Rising(kinds + (if present then [k] else []))
    ensures RanksAtMost(kinds + (if present then [k] else []), Rank(k))
  {
  }

  /** Sentences appear in strictly increasing slot order, so each slot at most once. */
  lemma SentencesOrdered(scan: ScanResult)
    ensures forall i, j :: 0 <= i < j < |Sentences(scan)| ==>
              Rank(KindOf(Sentences(scan)[i])) < Rank(KindOf(Sentences(scan)[j]))
  {
    SentenceKinds(scan);
    var apis := scan.suspiciousApis;
    var k0 := [Verdict];
    var k1 := k0 + (if HasFileType(scan) then [FileType] else []);
    RisingExtend(k0, FileType, HasFileType(scan));
    var k2 := k1 + (if InjectionApi in apis then [Injection] else []);
    RisingExtend(k1, Injection, InjectionApi in apis);
    var k3 := k2 + (if MemoryWriteApi in apis then [MemoryWrite] else []);
    RisingExtend(k2, MemoryWrite, MemoryWriteApi in apis);
    RisingExtend(k3, Detections, HasDetections(scan));
    assert Rising(KindsOf(Sentences(scan)));
  }

  /**
   * The verdict comes first: the "flagged" sentence exactly when the record is
   * malicious, the "no known signatures" sentence otherwise. One to five
   * sentences in all, and only the verdict when no optional field triggers.
   */
  lemma SentencesVerdict(scan: ScanResult)
    ensures 1 <= |Sentences(scan)| <= 5
    ensures Sentences(scan)[0] == FlaggedSentence <==> scan.malicious
    ensures Sentences(scan)[0] == CleanSentence <==> !scan.malicious
    ensures |Sentences(scan)| == 1 <==> !HasOptionalSentence(scan)
  {
    assert |FlaggedSentence| != |CleanSentence|;
  }

  /** The file-type sentence is present exactly when the file type is truthy, right after the verdict. */
  lemma SentencesFileType(scan: ScanResult)
    ensures FileType in KindsOf(Sentences(scan)) <==> HasFileType(scan)
    ensures HasFileType(scan) ==> Sentences(scan)[1] == FileTypeSentence(scan.fileType.value)
  {
    SentenceKinds(scan);
  }

  /** The code-injection sentence is present exactly when CreateRemoteThread is listed. */
  lemma SentencesInjection(scan: ScanResult)
    ensures InjectionSentence in Sentences(scan) <==> InjectionApi in scan.suspiciousApis
  {
    var ss := Sentences(scan);
    SentenceKinds(scan);
    KindsOfFixedSentences(scan.malicious);
    if InjectionSentence in ss {
      var i :| 0 <= i < |ss| && ss[i] == InjectionSentence;
      assert KindsOf(ss)[i] == Injection;
    }
    if InjectionApi in scan.suspiciousApis {
      var pre := [VerdictSentence(scan.malicious)] + FileTypePart(scan);
      assert ss[|pre|] == InjectionSentence;
    }
  }

  /** The memory-write sentence is present exactly when WriteProcessMemory is listed. */
  lemma SentencesMemoryWrite(scan: ScanResult)
    ensures MemoryWriteSentence in Sentences(scan) <==> MemoryWriteApi in scan.suspiciousApis
  {
    var ss := Sentences(scan);
    SentenceKinds(scan);
    KindsOfFixedSentences(scan.malicious);
    if MemoryWriteSentence in ss {
      var i :| 0 <= i < |ss| && ss[i] == MemoryWriteSentence;
      assert KindsOf(ss)[i] == MemoryWrite;
    }
    if MemoryWriteApi in scan.suspiciousApis {
      var pre := [VerdictSentence(scan.malicious)] + FileTypePart(scan) + InjectionPart(scan);
      assert ss[|pre|] == MemoryWriteSentence;
    }
  }

  /** The detection-count sentence is present exactly when the count is present and positive, and then last. */
  lemma SentencesDetections(scan: ScanResult)
    ensures Detections in KindsOf(Sentences(scan)) <==> HasDetections(scan)
    ensures HasDetections(scan) ==>
              Sentences(scan)[|Sentences(scan)| - 1] == DetectionSentence(scan.detections.value)
  {
    SentenceKinds(scan);
  }

  /**
   * The explanation text is never empty, opens with the verdict sentence, and
   * is that sentence alone when no optional field triggers.
   */
  lemma ExplainText(scan: ScanResult)
    ensures Join(Sentences(scan)) != ""
    ensures StartsWith(Join(Sentences(scan)), VerdictSentence(scan.malicious))
    ensures !HasOptionalSentence(scan) ==> Join(Sentences(scan)) == VerdictSentence(scan.malicious)
    ensures HasOptionalSentence(scan) ==>
              Join(Sentences(scan)) == VerdictSentence(scan.malicious) + " " + Join(Sentences(scan)[1..])
  {
    SentencesVerdict(scan);
    assert |FlaggedSentence| > 0 && |CleanSentence| > 0;
  }
}
