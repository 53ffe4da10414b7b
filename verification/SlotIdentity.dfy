/**
 worker_slot_config of tools/openai_oauth_reauth_worker.py: the worker id a pool slot runs under.
 */
module SlotIdentity {
  import opened Text

  // Python's s[:n]: a negative n counts from the end.
  function Prefix(s: string, n: int): string {
    if n >= |s| then s
    else if n >= 0 then s[..n]
    else if -n >= |s| then ""
    else s[..|s| + n]
  }

  function Suffix(slot: nat): string { "-slot-" + Decimal(slot) }

  function SlotId(base: string, slot: nat): string {
    Prefix(base, 128 - |Suffix(slot)|) + Suffix(slot)
  }

  // What follows the last '-'.
  function AfterLastDash(s: string): string {
    if s == "" || s[|s| - 1] == '-' then "" else AfterLastDash(s[..|s| - 1]) + [s[|s| - 1]]
  }

  lemma {:induction false} AfterLastDashOf(head: string, tail: string)
    requires '-' !in tail
    ensures AfterLastDash(head + "-" + tail) == tail
  {
    var s := head + "-" + tail;
    if tail == "" {
      assert s[|s| - 1] == '-';
    } else {
      var last := |tail| - 1;
      assert tail[last] in tail;
      assert s[..|s| - 1] == head + "-" + tail[..last];
      forall i | 0 <= i < last ensures tail[..last][i] != '-' {
        assert tail[i] in tail;
      }
      AfterLastDashOf(head, tail[..last]);
      assert tail == tail[..last] + [tail[last]];
    }
  }

  // The slot can be read back from any id derived for it, whatever the base and however it was cut.
  lemma SlotIsRecoverable(base: string, slot: nat)
    ensures AfterLastDash(SlotId(base, slot)) == Decimal(slot)
    ensures forall i :: 0 <= i < |Decimal(slot)| ==> IsDigit(Decimal(slot)[i])
    ensures ParseDigits(Decimal(slot)) == slot
  {
    DecimalRoundTrip(slot);
    var cut := Prefix(base, 128 - |Suffix(slot)|);
    assert SlotId(base, slot) == (cut + "-slot") + "-" + Decimal(slot);
    forall c | c in Decimal(slot) ensures c != '-' {
      var i :| 0 <= i < |Decimal(slot)| && Decimal(slot)[i] == c;
      assert IsDigit(c);
    }
    AfterLastDashOf(cut + "-slot", Decimal(slot));
  }

  // So no two slots ever share an id, under one base or several.
  lemma SlotIdsDistinct(base: string, slot: nat, base': string, slot': nat)
    requires SlotId(base, slot) == SlotId(base', slot')
    ensures slot == slot'
  {
    SlotIsRecoverable(base, slot);
    SlotIsRecoverable(base', slot');
  }

  // The 128-character limit holds exactly while the suffix alone fits into it; with slots up to 16 it always does.
  lemma LimitHoldsExactlyWhenSuffixFits(base: string, slot: nat)
    ensures |SlotId(base, slot)| <= 128 <==> |"-slot-" + Decimal(slot)| <= 128
    ensures slot <= 999 ==> |SlotId(base, slot)| <= 128
  {
    DecimalLength(slot);
  }

  // Truncation only ever drops the end of the base: nothing is lost when the whole id fits.
  lemma ShortBasesAreKept(base: string, slot: nat)
    requires |"-slot-" + Decimal(slot)| <= 128
    ensures SlotId(base, slot) == base + ("-slot-" + Decimal(slot)) <==> |base| + |"-slot-" + Decimal(slot)| <= 128
    ensures exists cut :: cut <= base && SlotId(base, slot) == cut + ("-slot-" + Decimal(slot))
  {
    if |base| + |Suffix(slot)| > 128 {
      assert |SlotId(base, slot)| == 128;
    }
    var cut := Prefix(base, 128 - |Suffix(slot)|);
    assert cut <= base && SlotId(base, slot) == cut + ("-slot-" + Decimal(slot));
  }

  lemma {:induction false} LongSlotsExist(n: nat)
    ensures exists slot: nat :: |Suffix(slot)| > n
  {
    if n == 0 {
      assert |Suffix(0)| > 0;
    } else {
      LongSlotsExist(n - 1);
      var slot: nat :| |Suffix(slot)| > n - 1;
      assert |Suffix(10 * slot + 10)| > n by {
        assert (10 * slot + 10) / 10 == slot + 1;
        DecimalGrows(slot);
      }
    }
  }

  lemma {:induction false} DecimalGrows(n: nat)
    ensures |Decimal(n + 1)| >= |Decimal(n)|
  {
    if n >= 10 {
      if (n + 1) / 10 != n / 10 {
        assert (n + 1) / 10 == n / 10 + 1;
        DecimalGrows(n / 10);
      }
    }
  }

  // Beyond that the slice counts from the end of the base, and the limit is broken for every base.
  lemma LimitFailsForLongSlots(base: string)
    ensures exists slot: nat :: |SlotId(base, slot)| > 128
  {
    LongSlotsExist(128);
    var slot: nat :| |Suffix(slot)| > 128;
    LimitHoldsExactlyWhenSuffixFits(base, slot);
    assert |SlotId(base, slot)| > 128;
  }
}
