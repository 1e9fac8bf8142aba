/**
 Model of the two places where an error text is classified: `is_lock_error`
 (src/core/lock.rs) and `truncate_message` (src/operator/controllers/update.rs).

 A message is the sequence of its UTF-8 bytes, each written as the character
 with that code, so every index below counts bytes as the source does.
 */
module Messages {
  import opened Basics

  const MAX_MESSAGE_LEN: nat := 100
  const DOTS := "..."

  // `str::contains`
  predicate OccursAt(text: string, phrase: string, i: nat) {
    i + |phrase| <= |text| && text[i..i + |phrase|] == phrase
  }

  ghost predicate Contains(text: string, phrase: string) {
    exists i: nat :: OccursAt(text, phrase, i)
  }

  ghost predicate IsLockError(message: string) {
    || Contains(message, "currently locked")
    || Contains(message, "locked by")
    || Contains(message, "lock held")
    || Contains(message, "update conflict")
  }

  // Byte 97 of a long message must start a character: slicing inside one aborts the process.
  predicate Sliceable(message: string) {
    |message| > MAX_MESSAGE_LEN ==> !(0x80 as char <= message[MAX_MESSAGE_LEN - 3] <= 0xBF as char)
  }

  predicate Ascii(message: string) {
    forall i :: 0 <= i < |message| ==> message[i] < 0x80 as char
  }

  // Messages `truncate_message` can process; None below is the abort on the others.
  type Legible = m: string | Sliceable(m) witness ""

  function TruncateMessage(message: string): Option<string> {
    if |message| <= MAX_MESSAGE_LEN then Some(message)
    else if !Sliceable(message) then None
    else Some(message[..MAX_MESSAGE_LEN - 3] + DOTS)
  }

  function Truncated(message: Legible): Legible {
    TruncateMessage(message).value
  }

  // `str::contains`, as the scan it is.
  method FindPhrase(text: string, phrase: string) returns (found: bool)
    ensures found <==> Contains(text, phrase)
  {
    found := false;
    var i := 0;
    while i + |phrase| <= |text|
      invariant 0 <= i <= |text| + 1
      invariant forall j: nat :: j < i ==> !OccursAt(text, phrase, j)
    {
      if text[i..i + |phrase|] == phrase {
        assert OccursAt(text, phrase, i);
        return true;
      }
      i := i + 1;
    }
  }

  method CheckLockError(message: string) returns (lock: bool)
    ensures lock <==> IsLockError(message)
    ensures lock <==> || Contains(message, "currently locked") || Contains(message, "locked by")
                      || Contains(message, "lock held") || Contains(message, "update conflict")
  {
    lock := FindPhrase(message, "currently locked");
    if !lock { lock := FindPhrase(message, "locked by"); }
    if !lock { lock := FindPhrase(message, "lock held"); }
    if !lock { lock := FindPhrase(message, "update conflict"); }
  }

  // Truncation is defined on every ASCII text, gives at most 100 bytes and does nothing the
  // second time, so writer and reader may both apply it.
  lemma TruncationSettles(message: string)
    ensures Ascii(message) ==> TruncateMessage(message).Some?
    ensures TruncateMessage(message).Some? ==>
              var t := TruncateMessage(message).value;
              && |t| <= MAX_MESSAGE_LEN
              && TruncateMessage(t) == Some(t)
              && (t == message <==> |message| <= MAX_MESSAGE_LEN)
              && t == if |message| <= 100 then message else message[..97] + "..."
  {}

  // No phrase contains a dot, so an occurrence cannot reach into the appended dots.
  lemma DotsHideNothing(head: string, phrase: string)
    requires phrase != [] && forall i :: 0 <= i < |phrase| ==> phrase[i] != '.'
    ensures Contains(head + DOTS, phrase) <==> Contains(head, phrase)
  {
    if i: nat :| OccursAt(head + DOTS, phrase, i) {
      forall j | i <= j < i + |phrase| ensures (head + DOTS)[j] != '.' {
        assert (head + DOTS)[i..i + |phrase|][j - i] == phrase[j - i];
      }
      assert (head + DOTS)[i + (if i <= |head| < i + |phrase| then |head| - i else 0)] != '.';
      assert i + |phrase| <= |head|;
      assert (head + DOTS)[i..i + |phrase|] == head[i..i + |phrase|];
      assert OccursAt(head, phrase, i);
    }
    if i: nat :| OccursAt(head, phrase, i) {
      assert (head + DOTS)[i..i + |phrase|] == head[i..i + |phrase|];
      assert OccursAt(head + DOTS, phrase, i);
    }
  }

  // A long message is a lock error after truncation, at the writer and again at the reader,
  // exactly when its first 97 bytes already contain a phrase.
  lemma TruncationKeepsClassification(message: Legible)
    requires |message| > MAX_MESSAGE_LEN
    ensures IsLockError(Truncated(message)) <==> IsLockError(message[..MAX_MESSAGE_LEN - 3])
    ensures IsLockError(Truncated(Truncated(message))) <==> IsLockError(message[..MAX_MESSAGE_LEN - 3])
  {
    var head := message[..MAX_MESSAGE_LEN - 3];
    DotsHideNothing(head, "currently locked");
    DotsHideNothing(head, "locked by");
    DotsHideNothing(head, "lock held");
    DotsHideNothing(head, "update conflict");
    assert Truncated(Truncated(message)) == Truncated(message);
  }

  // Classification survives truncation of every message exactly when the phrase is early enough:
  // it can be lost, never invented.
  lemma TruncationNeverInvents(message: Legible)
    ensures IsLockError(Truncated(message)) ==> IsLockError(message)
  {
    if |message| > MAX_MESSAGE_LEN {
      TruncationKeepsClassification(message);
      var head := message[..MAX_MESSAGE_LEN - 3];
      forall phrase: string, i: nat | OccursAt(head, phrase, i) ensures Contains(message, phrase) {
        assert message[i..i + |phrase|] == head[i..i + |phrase|];
        assert OccursAt(message, phrase, i);
      }
    }
  }
}
