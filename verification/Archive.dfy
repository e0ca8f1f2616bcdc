/** Which member of an archive is the chat, and how much of it is read. */
module Archive {
  import opened Wrappers
  import opened Decode

  const MAX_DECOMPRESSED_BYTES := 20 * 1024 * 1024

  /** What decompressing yields: the bytes, or an error (corrupt, encrypted, unsupported). */
  datatype Stream = Bytes(content: seq<Byte>) | Broken

  /** A member of a ZIP archive; its size is what the archive claims. */
  datatype Member = Member(name: string, claimedSize: nat, stream: Stream)

  datatype Error = NoChat | TooLarge | Unreadable

  datatype Reason = ChatTxt | LargestTxt | ReadableText | Gzip

  datatype Extraction = Extracted(text: string, name: string, reason: Reason) | ArchiveError(error: Error)

  // ---------- Names ----------

  /** The part of a path after its last slash. */
  function LastPart(path: string): string {
    if path == [] then []
    else if path[|path| - 1] == '/' then []
    else LastPart(path[..|path| - 1]) + [path[|path| - 1]]
  }

  /** The name of a pure path: its last component, where empty components and `.` do not count. */
  function BaseName(path: string): string
    decreases |path|
  {
    var last := LastPart(path);
    LastPartIsSuffix(path);
    if |last| == |path| then (if last == "." then "" else last)
    else if last == "" || last == "." then BaseName(path[..|path| - |last| - 1])
    else last
  }

  lemma {:induction false} LastPartIsSuffix(path: string)
    ensures var last := LastPart(path);
            && |last| <= |path| && path[|path| - |last|..] == last && '/' !in last
            && (|last| < |path| ==> path[|path| - |last| - 1] == '/')
  {
    if path != [] && path[|path| - 1] != '/' { LastPartIsSuffix(path[..|path| - 1]); }
  }

  /** A component that counts is the name of every path that ends with it. */
  lemma {:induction false} BaseNameMeaning(path: string)
    ensures '/' !in BaseName(path) && BaseName(path) != "."
    ensures forall name: string, dir: string ::
              path == dir + "/" + name && '/' !in name && name != "" && name != "." ==>
              BaseName(path) == name
    ensures '/' !in path && path != "." ==> BaseName(path) == path
    ensures forall dir: string :: path == dir + "/" || path == dir + "/." ==> BaseName(path) == BaseName(dir)
    decreases |path|
  {
    var last := LastPart(path);
    LastPartIsSuffix(path);
    if |last| < |path| && (last == "" || last == ".") { BaseNameMeaning(path[..|path| - |last| - 1]); }
    forall name: string, dir: string | path == dir + "/" + name && '/' !in name ensures last == name {
      LastPartAfterSlash(dir, name);
    }
    forall dir: string | path == dir + "/" || path == dir + "/."
      ensures BaseName(path) == BaseName(dir)
    {
      var name := if path == dir + "/" then "" else ".";
      assert path == dir + "/" + name;
      LastPartAfterSlash(dir, name);
      assert path[..|path| - |name| - 1] == dir;
    }
  }

  lemma {:induction false} LastPartAfterSlash(dir: string, name: string)
    requires '/' !in name
    ensures LastPart(dir + "/" + name) == name
  {
    var path := dir + "/" + name;
    if name != [] {
      var init := name[..|name| - 1];
      LastPartAfterSlash(dir, init);
      assert path[..|path| - 1] == dir + "/" + init;
    }
  }

  function Lower(s: string): (lower: string)
    ensures |lower| == |s|
  {
    seq(|s|, i requires 0 <= i < |s| => if 'A' <= s[i] <= 'Z' then (s[i] as int + 32) as char else s[i])
  }

  predicate EndsWith(s: string, end: string) {
    |end| <= |s| && s[|s| - |end|..] == end
  }

  predicate Contains(s: string, word: string) {
    exists i :: 0 <= i <= |s| && word <= s[i..]
  }

  /** A regular file, and none of the resource forks that macOS adds. */
  predicate IsRegular(m: Member) {
    && !EndsWith(m.name, "/")
    && !Contains(m.name, "__MACOSX/")
    && !("._" <= BaseName(m.name))
  }

  predicate IsChatTxt(m: Member) {
    Lower(BaseName(m.name)) == "_chat.txt"
  }

  predicate IsTxt(m: Member) {
    EndsWith(Lower(BaseName(m.name)), ".txt")
  }

  predicate HasDot(m: Member) {
    '.' in BaseName(m.name)
  }

  // ---------- Reading ----------

  /** At most one byte more than the cap is read, and then the cap is checked. */
  function Read(stream: Stream): Result {
    if stream == Broken then Fails(Unreadable)
    else
      var n := MAX_DECOMPRESSED_BYTES + 1;
      WithinCap(if |stream.content| > n then stream.content[..n] else stream.content)
  }

  datatype Result = Reads(data: seq<Byte>) | Fails(error: Error)

  function WithinCap(data: seq<Byte>): Result {
    if |data| > MAX_DECOMPRESSED_BYTES then Fails(TooLarge) else Reads(data)
  }

  function Extract(m: Member, reason: Reason): Extraction {
    match Read(m.stream)
    case Fails(error) => ArchiveError(error)
    case Reads(data) => Extracted(DecodeText(data), m.name, reason)
  }

  // ---------- Choosing ----------

  function Filter(ms: seq<Member>, p: Member -> bool): (kept: seq<Member>)
    ensures forall m :: m in kept <==> m in ms && p(m)
  {
    if ms == [] then []
    else Filter(ms[..|ms| - 1], p) + if p(ms[|ms| - 1]) then [ms[|ms| - 1]] else []
  }

  predicate NameLe(a: string, b: string) {
    a == [] || (b != [] && (a[0] < b[0] || (a[0] == b[0] && NameLe(a[1..], b[1..]))))
  }

  /** Larger first, and of equal sizes the smaller name. */
  predicate Ahead(m: Member, n: Member) {
    m.claimedSize > n.claimedSize || (m.claimedSize == n.claimedSize && NameLe(m.name, n.name))
  }

  lemma {:induction false} NamesAreOrdered(a: string, b: string)
    ensures NameLe(a, b) || NameLe(b, a)
    ensures NameLe(a, b) && NameLe(b, a) ==> a == b
  {
    if a != [] && b != [] {
      NamesAreOrdered(a[1..], b[1..]);
      assert a == [a[0]] + a[1..] && b == [b[0]] + b[1..];
    }
  }

  lemma {:induction false} NameLeTransitive(a: string, b: string, c: string)
    requires NameLe(a, b) && NameLe(b, c)
    ensures NameLe(a, c)
  {
    if a != [] && a[0] == b[0] == c[0] { NameLeTransitive(a[1..], b[1..], c[1..]); }
  }

  /** The head of the members sorted by size and name. */
  function Largest(ms: seq<Member>): (best: Member)
    requires ms != []
    ensures best in ms && forall m :: m in ms ==> Ahead(best, m)
  {
    NamesAreOrdered(ms[|ms| - 1].name, ms[|ms| - 1].name);
    if |ms| == 1 then ms[0]
    else
      var before, last := Largest(ms[..|ms| - 1]), ms[|ms| - 1];
      NamesAreOrdered(before.name, last.name);
      assert ms == ms[..|ms| - 1] + [last];
      if Ahead(before, last) then before
      else AllBehind(ms[..|ms| - 1], before, last); last
  }

  lemma AllBehind(ms: seq<Member>, best: Member, last: Member)
    requires (forall m :: m in ms ==> Ahead(best, m)) && Ahead(last, best)
    ensures forall m :: m in ms ==> Ahead(last, m)
  {
    forall m | m in ms ensures Ahead(last, m) {
      if last.claimedSize == best.claimedSize == m.claimedSize { NameLeTransitive(last.name, best.name, m.name); }
    }
  }

  /** The first member without a dot in its name whose text has no NUL; a member that cannot be read
      ends the search. */
  function FirstReadable(ms: seq<Member>): Extraction {
    if ms == [] then ArchiveError(NoChat)
    else if HasDot(ms[0]) then FirstReadable(ms[1..])
    else
      var r := Extract(ms[0], ReadableText);
      if r.ArchiveError? || '\0' !in r.text then r else FirstReadable(ms[1..])
  }

  /** `_extract_zip`; none for bytes that are no ZIP archive. */
  function ExtractZip(archive: Option<seq<Member>>): Extraction {
    if archive == None then ArchiveError(Unreadable)
    else
      var members := Filter(archive.value, IsRegular);
      var chats, txts := Filter(members, IsChatTxt), Filter(members, IsTxt);
      if chats != [] then Extract(chats[0], ChatTxt)
      else if txts != [] then Extract(Largest(txts), LargestTxt)
      else FirstReadable(members)
  }

  /** `_extract_gzip`. */
  function ExtractGzip(stream: Stream, source: string): Extraction {
    match Read(stream)
    case Fails(error) => ArchiveError(error)
    case Reads(data) =>
      var text := DecodeText(data);
      if '\0' in text then ArchiveError(NoChat)
      else Extracted(text, if EndsWith(Lower(source), ".gz") then source[..|source| - 3] else source + ".txt", Gzip)
  }

  // ---------- What is chosen ----------

  /** A member that is passed over: it has a dot in its name, or a NUL in its text. */
  predicate PassedOver(m: Member) {
    HasDot(m) || (Extract(m, ReadableText).Extracted? && '\0' in Extract(m, ReadableText).text)
  }

  /** Member `i` is the one that the rules choose, and for this reason: the first `_chat.txt`; without
      one, the largest `.txt`; without that, the first member that is not passed over. */
  predicate IsChosen(ms: seq<Member>, i: nat, reason: Reason) {
    && i < |ms| && IsRegular(ms[i])
    && match reason
       case ChatTxt =>
         && IsChatTxt(ms[i])
         && (forall k :: 0 <= k < i && IsRegular(ms[k]) ==> !IsChatTxt(ms[k]))
       case LargestTxt =>
         && IsTxt(ms[i])
         && (forall n :: n in ms && IsRegular(n) ==> !IsChatTxt(n) && (IsTxt(n) ==> Ahead(ms[i], n)))
       case ReadableText =>
         && !PassedOver(ms[i])
         && (forall n :: n in ms && IsRegular(n) ==> !IsTxt(n))
         && (forall k :: 0 <= k < i && IsRegular(ms[k]) ==> PassedOver(ms[k]))
       case Gzip => false
  }

  /** The place of a filtered member: every member before it that is kept comes before it. */
  lemma {:induction false} PlaceOf(ms: seq<Member>, p: Member -> bool, j: nat) returns (i: nat)
    requires j < |Filter(ms, p)|
    ensures i < |ms| && ms[i] == Filter(ms, p)[j]
    ensures forall k :: 0 <= k < i && p(ms[k]) ==> ms[k] in Filter(ms, p)[..j]
  {
    var n := |ms| - 1;
    var before := Filter(ms[..n], p);
    if j < |before| {
      i := PlaceOf(ms[..n], p, j);
      assert Filter(ms, p)[..j] == before[..j];
    } else {
      i := n;
      assert Filter(ms, p)[..j] == before;
    }
  }

  /** What holds of the filtered members before a place holds of the kept ones before it. */
  lemma BeforePlace(ms: seq<Member>, p: Member -> bool, q: Member -> bool, i: nat, j: nat)
    requires i <= |ms| && j <= |Filter(ms, p)|
    requires forall k :: 0 <= k < i && p(ms[k]) ==> ms[k] in Filter(ms, p)[..j]
    requires forall l :: 0 <= l < j ==> q(Filter(ms, p)[l])
    ensures forall k :: 0 <= k < i && p(ms[k]) ==> q(ms[k])
  {
  }

  lemma NoneLeft(ms: seq<Member>, p: Member -> bool, q: Member -> bool)
    requires Filter(Filter(ms, p), q) == []
    ensures forall m :: m in ms && p(m) ==> !q(m)
  {
    forall m | m in ms && p(m) ensures !q(m) {
      assert q(m) ==> m in Filter(Filter(ms, p), q);
    }
  }

  /** The first member that the search does not pass over decides. */
  lemma {:induction false} FirstReadableIs(ms: seq<Member>) returns (j: nat)
    ensures j <= |ms| && forall k :: 0 <= k < j ==> PassedOver(ms[k])
    ensures if j == |ms| then FirstReadable(ms) == ArchiveError(NoChat)
            else !PassedOver(ms[j]) && FirstReadable(ms) == Extract(ms[j], ReadableText)
  {
    if ms == [] || !PassedOver(ms[0]) {
      j := 0;
    } else {
      j := FirstReadableIs(ms[1..]);
      j := j + 1;
    }
  }

  lemma ChatTxtIsTxt(m: Member)
    requires IsChatTxt(m)
    ensures IsTxt(m)
  {
  }

  /** A chosen member with a dot in its name is a `.txt` file, and reading it fails for its own reasons
      only. */
  lemma ChosenMember(ms: seq<Member>, i: nat, reason: Reason)
    requires IsChosen(ms, i, reason)
    ensures HasDot(ms[i]) ==> IsTxt(ms[i])
    ensures Extract(ms[i], reason) != ArchiveError(NoChat)
  {
    if reason == ChatTxt { ChatTxtIsTxt(ms[i]); }
  }

  lemma FirstChat(ms: seq<Member>) returns (i: nat)
    requires Filter(Filter(ms, IsRegular), IsChatTxt) != []
    ensures IsChosen(ms, i, ChatTxt) && ExtractZip(Some(ms)) == Extract(ms[i], ChatTxt)
  {
    var members := Filter(ms, IsRegular);
    var j := PlaceOf(members, IsChatTxt, 0);
    i := PlaceOf(ms, IsRegular, j);
    assert members[j] in members;
    BeforePlace(members, IsChatTxt, m => false, j, 0);
    BeforePlace(ms, IsRegular, m => !IsChatTxt(m), i, j);
  }

  lemma LargestText(ms: seq<Member>) returns (i: nat)
    requires Filter(Filter(ms, IsRegular), IsChatTxt) == [] && Filter(Filter(ms, IsRegular), IsTxt) != []
    ensures IsChosen(ms, i, LargestTxt) && ExtractZip(Some(ms)) == Extract(ms[i], LargestTxt)
  {
    var members := Filter(ms, IsRegular);
    var chats, txts := Filter(members, IsChatTxt), Filter(members, IsTxt);
    var best := Largest(txts);
    i :| 0 <= i < |ms| && ms[i] == best;
    NoneLeft(ms, IsRegular, IsChatTxt);
    assert forall n :: n in ms && IsRegular(n) && IsTxt(n) ==> n in txts;
  }

  lemma FirstText(ms: seq<Member>) returns (i: nat)
    requires forall n :: n in ms && IsRegular(n) ==> !IsTxt(n)
    ensures i == |ms| || (IsChosen(ms, i, ReadableText) && ExtractZip(Some(ms)) == Extract(ms[i], ReadableText))
    ensures i == |ms| ==>
              && ExtractZip(Some(ms)) == ArchiveError(NoChat)
              && forall m :: m in ms && IsRegular(m) ==> PassedOver(m)
  {
    NoTxtTriesOthers(ms);
    var members := Filter(ms, IsRegular);
    var j := FirstReadableIs(members);
    if j == |members| {
      i := |ms|;
      forall m | m in ms && IsRegular(m) ensures PassedOver(m) { assert m in members; }
    } else {
      i := PlaceOf(ms, IsRegular, j);
      assert members[j] in members;
      BeforePlace(ms, IsRegular, PassedOver, i, j);
    }
  }

  /** The result, a text or an error, is what reading the chosen member gives, and only if no member is
      chosen there is no chat. So a member with a dot in its name that is no `.txt` file is never
      returned, and a member chosen but unreadable is an error, not passed over. */
  lemma HighestRuleApplies(ms: seq<Member>) returns (i: nat, reason: Reason)
    ensures i <= |ms|
    ensures i < |ms| ==> IsChosen(ms, i, reason) && ExtractZip(Some(ms)) == Extract(ms[i], reason)
    ensures i < |ms| && HasDot(ms[i]) ==> IsTxt(ms[i])
    ensures i == |ms| <==> ExtractZip(Some(ms)) == ArchiveError(NoChat)
    ensures i == |ms| ==> forall m :: m in ms && IsRegular(m) ==> !IsTxt(m) && PassedOver(m)
  {
    var members := Filter(ms, IsRegular);
    if Filter(members, IsChatTxt) != [] {
      i := FirstChat(ms);
      reason := ChatTxt;
    } else if Filter(members, IsTxt) != [] {
      i := LargestText(ms);
      reason := LargestTxt;
    } else {
      NoneLeft(ms, IsRegular, IsTxt);
      i := FirstText(ms);
      reason := ReadableText;
    }
    if i < |ms| { ChosenMember(ms, i, reason); }
  }

  lemma {:induction false} NoneKept(ms: seq<Member>, p: Member -> bool)
    requires forall m :: m in ms ==> !p(m)
    ensures Filter(ms, p) == []
  {
    if ms != [] { NoneKept(ms[..|ms| - 1], p); }
  }

  /** Without a `.txt` file, the members without a dot are tried in order. */
  lemma NoTxtTriesOthers(ms: seq<Member>)
    requires forall m :: m in ms && IsRegular(m) ==> !IsTxt(m)
    ensures ExtractZip(Some(ms)) == FirstReadable(Filter(ms, IsRegular))
  {
    var members := Filter(ms, IsRegular);
    forall m | m in members ensures !IsTxt(m) && !IsChatTxt(m) {
      if IsChatTxt(m) { ChatTxtIsTxt(m); }
    }
    NoneKept(members, IsChatTxt);
    NoneKept(members, IsTxt);
  }

  // ---------- The answer in full ----------

  function Encodings(text: string): seq<seq<Byte>> {
    [Utf8(text), UTF8_MARK + Utf8(text), LITTLE_MARK + Utf16(text, Little), BIG_MARK + Utf16(text, Big)]
  }

  /** An entry that is no folder, not under a `__MACOSX` folder, and not named with a leading `._`. */
  ghost predicate Counts(m: Member) {
    && (m.name == "" || m.name[|m.name| - 1] != '/')
    && !(exists i :: 0 <= i <= |m.name| && "__MACOSX/" <= m.name[i..])
    && !(|BaseName(m.name)| >= 2 && BaseName(m.name)[0] == '.' && BaseName(m.name)[1] == '_')
  }

  /** A text in any case: each character is that of the one spelling or of the other. */
  ghost predicate Spells(s: string, lower: string, upper: string)
    requires |lower| == |upper|
  {
    |s| == |lower| && forall k :: 0 <= k < |s| ==> s[k] == lower[k] || s[k] == upper[k]
  }

  ghost predicate NamedChat(m: Member) {
    Spells(BaseName(m.name), "_chat.txt", "_CHAT.TXT")
  }

  ghost predicate NamedTxt(m: Member) {
    var base := BaseName(m.name);
    |base| >= 4 && Spells(base[|base| - 4..], ".txt", ".TXT")
  }

  /** The text of a member that can be read within the cap holds a NUL. */
  ghost predicate HoldsNul(m: Member) {
    m.stream.Bytes? && |m.stream.content| <= 20 * 1024 * 1024 && '\0' in DecodeText(m.stream.content)
  }

  /** In the order of sizes and names, this one comes strictly first. */
  ghost predicate Larger(m: Member, n: Member) {
    || m.claimedSize > n.claimedSize
    || (m.claimedSize == n.claimedSize && m.name != n.name
        && exists k :: 0 <= k <= |m.name| && k < |n.name| && m.name[..k] == n.name[..k]
                       && (k == |m.name| || m.name[k] < n.name[k]))
  }

  /** Member `i` is the one that decides, for this reason. */
  ghost predicate Decides(ms: seq<Member>, i: nat, reason: Reason)
    requires i < |ms|
  {
    && Counts(ms[i])
    && match reason
       case ChatTxt => NamedChat(ms[i]) && forall k :: 0 <= k < i && Counts(ms[k]) ==> !NamedChat(ms[k])
       case LargestTxt =>
         && NamedTxt(ms[i])
         && (forall k :: 0 <= k < |ms| && Counts(ms[k]) ==> !NamedChat(ms[k]))
         && (forall k :: 0 <= k < |ms| && Counts(ms[k]) && NamedTxt(ms[k]) ==>
               Larger(ms[i], ms[k]) || (ms[i].claimedSize == ms[k].claimedSize && ms[i].name == ms[k].name))
       case ReadableText =>
         && '.' !in BaseName(ms[i].name) && !HoldsNul(ms[i])
         && (forall k :: 0 <= k < |ms| && Counts(ms[k]) ==> !NamedTxt(ms[k]))
         && (forall k :: 0 <= k < i && Counts(ms[k]) ==> '.' in BaseName(ms[k].name) || HoldsNul(ms[k]))
       case Gzip => false
  }

  /** What comes of reading a stream in full: its text under this name, or an error. */
  ghost predicate ReadInFull(stream: Stream, name: string, reason: Reason, r: Extraction) {
    if stream == Broken then r == ArchiveError(Unreadable)
    else if |stream.content| > 20 * 1024 * 1024 then r == ArchiveError(TooLarge)
    else r == Extracted(DecodeText(stream.content), name, reason)
  }

  lemma {:induction false} NameLeMeaning(a: string, b: string)
    ensures NameLe(a, b) && a != b ==>
              exists k :: 0 <= k <= |a| && k < |b| && a[..k] == b[..k] && (k == |a| || a[k] < b[k])
  {
    if NameLe(a, b) && a != b {
      if a == [] || a[0] < b[0] {
        assert a[..0] == b[..0];
      } else {
        NameLeMeaning(a[1..], b[1..]);
        assert a == [a[0]] + a[1..] && b == [b[0]] + b[1..];
        var k :| 0 <= k <= |a[1..]| && k < |b[1..]| && a[1..][..k] == b[1..][..k]
                 && (k == |a[1..]| || a[1..][k] < b[1..][k]);
        assert a[..k + 1] == [a[0]] + a[1..][..k] && b[..k + 1] == [b[0]] + b[1..][..k];
      }
    }
  }

  lemma NamesMean(m: Member)
    ensures IsRegular(m) <==> Counts(m)
    ensures IsChatTxt(m) <==> NamedChat(m)
    ensures IsTxt(m) <==> NamedTxt(m)
  {
    var base := BaseName(m.name);
    RegularMeans(m);
    SpelledChat(base);
    if |base| >= 4 {
      assert Lower(base)[|base| - 4..] == Lower(base[|base| - 4..]);
      SpelledTxt(base[|base| - 4..]);
    }
  }

  lemma RegularMeans(m: Member)
    ensures IsRegular(m) <==> Counts(m)
  {
    var base := BaseName(m.name);
    assert EndsWith(m.name, "/") <==> m.name != "" && m.name[|m.name| - 1] == '/';
    assert "._" <= base <==> |base| >= 2 && base[0] == '.' && base[1] == '_';
  }

  lemma SpelledTxt(s: string)
    ensures Lower(s) == ".txt" <==> Spells(s, ".txt", ".TXT")
  {
  }

  lemma SpelledChat(s: string)
    ensures Lower(s) == "_chat.txt" <==> Spells(s, "_chat.txt", "_CHAT.TXT")
  {
  }

  lemma ExtractInFull(m: Member, reason: Reason)
    ensures ReadInFull(m.stream, m.name, reason, Extract(m, reason))
    ensures PassedOver(m) <==> '.' in BaseName(m.name) || HoldsNul(m)
  {
  }

  lemma AheadMeans(m: Member, n: Member)
    requires Ahead(m, n)
    ensures Larger(m, n) || (m.claimedSize == n.claimedSize && m.name == n.name)
  {
    NameLeMeaning(m.name, n.name);
  }

  /** `_extract_zip` in full: the member that the highest rule chooses decides, its text, name and rule are
      the answer, and a broken or too long stream is an error whatever size is claimed; without such a member
      there is no chat. A text in any of the four encodings comes back. */
  lemma ZipAnswer(ms: seq<Member>, text: string) returns (i: nat, reason: Reason)
    ensures ExtractZip(None) == ArchiveError(Unreadable)
    ensures i <= |ms|
    ensures i < |ms| ==> Decides(ms, i, reason) && ReadInFull(ms[i].stream, ms[i].name, reason, ExtractZip(Some(ms)))
    ensures i < |ms| && ms[i].stream.Bytes? && |ms[i].stream.content| <= 20 * 1024 * 1024
            && ms[i].stream.content in Encodings(text) && (text == [] || text[0] != MARK) ==>
              ExtractZip(Some(ms)) == Extracted(text, ms[i].name, reason)
    ensures i == |ms| ==>
              && ExtractZip(Some(ms)) == ArchiveError(NoChat)
              && forall k :: 0 <= k < |ms| && Counts(ms[k]) ==>
                   !NamedTxt(ms[k]) && ('.' in BaseName(ms[k].name) || HoldsNul(ms[k]))
  {
    i, reason := HighestRuleApplies(ms);
    hide BaseName, DecodeText, Encodings;
    forall k | 0 <= k < |ms|
      ensures IsRegular(ms[k]) <==> Counts(ms[k])
      ensures IsChatTxt(ms[k]) <==> NamedChat(ms[k])
      ensures IsTxt(ms[k]) <==> NamedTxt(ms[k])
      ensures PassedOver(ms[k]) <==> '.' in BaseName(ms[k].name) || HoldsNul(ms[k])
    {
      NamesMean(ms[k]);
      ExtractInFull(ms[k], ReadableText);
    }
    if i < |ms| {
      ExtractInFull(ms[i], reason);
      EncodingsDecode(text);
      forall k | 0 <= k < |ms| && Ahead(ms[i], ms[k])
        ensures Larger(ms[i], ms[k]) || (ms[i].claimedSize == ms[k].claimedSize && ms[i].name == ms[k].name)
      {
        AheadMeans(ms[i], ms[k]);
      }
    }
  }

  lemma EncodingsDecode(text: string)
    ensures text == [] || text[0] != MARK ==> forall e :: e in Encodings(text) ==> DecodeText(e) == text
  {
    DecodeRoundTripIff(text);
  }

  // ---------- Order of the members ----------

  /** Different members have different names. */
  predicate NamesIdentify(ms: seq<Member>) {
    forall m, n :: m in ms && n in ms && m.name == n.name ==> m == n
  }

  /** Sorting the members by size and name puts this one first. */
  lemma SortedHeadIsLargest(ms: seq<Member>, sorted: seq<Member>)
    requires ms != [] && NamesIdentify(ms) && multiset(sorted) == multiset(ms)
    requires forall i, j :: 0 <= i < j < |sorted| ==> Ahead(sorted[i], sorted[j])
    ensures sorted != [] && sorted[0] == Largest(ms)
  {
    assert |sorted| == |multiset(sorted)| == |ms|;
    assert sorted[0] in multiset(ms);
    var best := Largest(ms);
    assert best in multiset(sorted);
    NamesAreOrdered(sorted[0].name, best.name);
  }

  /** The largest member does not depend on the order of the members. */
  lemma LargestOfPermutation(ms: seq<Member>, ms': seq<Member>)
    requires ms != [] && ms' != [] && NamesIdentify(ms) && forall m :: m in ms <==> m in ms'
    ensures Largest(ms) == Largest(ms')
  {
    NamesAreOrdered(Largest(ms).name, Largest(ms').name);
  }

  lemma SameMembers(ms: seq<Member>, ms': seq<Member>, p: Member -> bool)
    requires forall m :: m in ms <==> m in ms'
    ensures forall m :: m in Filter(ms, p) <==> m in Filter(ms', p)
    ensures Filter(ms, p) == [] <==> Filter(ms', p) == []
  {
    var a, b := Filter(ms, p), Filter(ms', p);
    assert a != [] ==> a[0] in a;
    assert b != [] ==> b[0] in b;
  }

  lemma PermutationMembers(ms: seq<Member>, ms': seq<Member>)
    requires multiset(ms) == multiset(ms')
    ensures forall m :: m in ms <==> m in ms'
  {
    forall m ensures m in ms <==> m in ms' {
      assert m in ms <==> m in multiset(ms);
      assert m in ms' <==> m in multiset(ms');
    }
  }

  /** Nor does the whole extraction, if some `.txt` file decides it and at most one of them is called
      `_chat.txt`. */
  lemma OrderDoesNotMatter(ms: seq<Member>, ms': seq<Member>, txt: Member)
    requires NamesIdentify(ms) && multiset(ms) == multiset(ms')
    requires txt in ms && IsRegular(txt) && IsTxt(txt)
    requires forall m, n ::
               m in ms && n in ms && IsRegular(m) && IsRegular(n) && IsChatTxt(m) && IsChatTxt(n) ==> m == n
    ensures ExtractZip(Some(ms)) == ExtractZip(Some(ms'))
  {
    PermutationMembers(ms, ms');
    var members, members' := Filter(ms, IsRegular), Filter(ms', IsRegular);
    SameMembers(ms, ms', IsRegular);
    SameMembers(members, members', IsChatTxt);
    SameMembers(members, members', IsTxt);
    assert txt in Filter(members, IsTxt);
    var chats, chats' := Filter(members, IsChatTxt), Filter(members', IsChatTxt);
    if chats == [] {
      LargestOfPermutation(Filter(members, IsTxt), Filter(members', IsTxt));
    } else {
      OnlyOne(chats, chats');
    }
  }

  lemma OnlyOne(a: seq<Member>, b: seq<Member>)
    requires a != [] && b != [] && forall m :: m in a <==> m in b
    requires forall m, n :: m in a && n in a ==> m == n
    ensures a[0] == b[0]
  {
    assert a[0] in a && b[0] in b;
  }

  // ---------- A gzip stream ----------

  /** `_extract_gzip` in full: the text, unless it holds a NUL, under the name without `.gz`, or with `.txt`; a
      broken or too long stream is an error. */
  lemma GzipAnswer(stream: Stream, source: string)
    ensures var gz := |source| >= 3 && Spells(source[|source| - 3..], ".gz", ".GZ");
            var r := ExtractGzip(stream, source);
            if stream.Bytes? && |stream.content| <= 20 * 1024 * 1024 && '\0' in DecodeText(stream.content)
            then r == ArchiveError(NoChat)
            else ReadInFull(stream, if gz then source[..|source| - 3] else source + ".txt", Gzip, r)
  {
    hide DecodeText;
    if |source| >= 3 {
      var end := source[|source| - 3..];
      assert Lower(source)[|source| - 3..] == Lower(end);
    }
  }

  /** A text that is compressed in any encoding, within the cap, comes back from all of them exactly if it
      holds no NUL and does not itself begin with a mark. */
  lemma GzipRoundTripIff(text: string, source: string)
    requires forall i :: 0 <= i < 4 ==> |Encodings(text)[i]| <= MAX_DECOMPRESSED_BYTES
    ensures (forall i :: 0 <= i < 4 ==>
               var r := ExtractGzip(Bytes(Encodings(text)[i]), source);
               r.Extracted? && r.text == text)
            <==> '\0' !in text && (text == [] || text[0] != MARK)
  {
    DecodeRoundTripIff(text);
    hide DecodeText, Utf8, Utf16;
    var encodings := Encodings(text);
    forall i | 0 <= i < 4
      ensures var r := ExtractGzip(Bytes(encodings[i]), source);
              r.Extracted? && r.text == text <==> DecodeText(encodings[i]) == text && '\0' !in text
    {
    }
    assert encodings[0] == Utf8(text) && encodings[1] == UTF8_MARK + Utf8(text);
    assert encodings[2] == LITTLE_MARK + Utf16(text, Little) && encodings[3] == BIG_MARK + Utf16(text, Big);
  }
}
