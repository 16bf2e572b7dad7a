/**
 * The fail-fast marshalling helpers and the guarded free of dmslite_utils.h.
 *
 * `PACKET_MARSHALL_HELPER` and `RAWDATA_MARSHALL_HELPER` wrap one
 * `Marshall<type>` call of the packet builder: when it reports failure the
 * macro runs `CleanBuild()` and makes the enclosing function return -1.
 * A function that uses several of them in a row is therefore a
 * short-circuit fold over its ordered field list.  The packet builder is the
 * pack module's shared build buffer; this model keeps only the list of
 * fields it holds and a log of the calls made into it (the byte layout of
 * a field is not modelled).
 */
module Marshalling {
  import opened Wrappers
  import Endian

  /** uint16_t */
  type Uint16 = x: int | 0 <= x < 0x1_0000

  /** The tags of the fields a start-ability packet carries. */
  datatype FieldTag = CommandId | CalleeBundleName | CalleeAbilityName | CallerSignature | DmsVersion

  /** The argument list of one `Marshall<type>` call. */
  datatype Field =
    | Uint16Field(tag: FieldTag, value: Uint16)                         // MarshallUint16
    | StringField(tag: FieldTag, text: string)                          // MarshallString
    | RawDataField(tag: FieldTag, data: seq<Endian.Byte>, length: nat)  // MarshallRawData

  /** One call into the packet builder. */
  datatype BuildEvent =
    | Prepared                           // PreprareBuild
    | MarshallCalled(field: Field, ok: bool)
    | Cleaned                            // CleanBuild

  /** The shared packet-build buffer of the pack module. */
  class PacketBuilder {
    var fields: seq<Field>            // the fields written since the buffer was last reset
    ghost var log: seq<BuildEvent>    // every call made into the builder, in order

    constructor ()
      ensures fields == [] && log == []
    {
      fields, log := [], [];
    }

    /** PreprareBuild: starts a fresh packet. */
    method PrepareBuild()
      modifies this
      ensures fields == [] && log == old(log) + [Prepared]
    {
      fields, log := [], log + [Prepared];
    }

    /**
     * `Marshall<type>(field, fieldType[, length])`; whether the buffer
     * accepts the field is the outcome `ok` of the pack module.
     */
    method Marshall(f: Field, ok: bool) returns (r: bool)
      modifies this
      ensures r == ok
      ensures fields == (if ok then old(fields) + [f] else old(fields))
      ensures log == old(log) + [MarshallCalled(f, ok)]
    {
      if ok {
        fields := fields + [f];
      }
      log := log + [MarshallCalled(f, ok)];
      r := ok;
    }

    /** CleanBuild: discards the packet under construction. */
    method CleanBuild()
      modifies this
      ensures fields == [] && log == old(log) + [Cleaned]
    {
      fields, log := [], log + [Cleaned];
    }
  }

  // ---------------------------------------------------------------------
  // The helper chain

  /** The index of the first failed outcome, or |oks| when none failed. */
  function FirstFailure(oks: seq<bool>): (k: nat)
    ensures k <= |oks|
    ensures forall i :: 0 <= i < k ==> oks[i]
    ensures k < |oks| ==> !oks[k]
  {
    if |oks| == 0 || !oks[0] then 0 else 1 + FirstFailure(oks[1..])
  }

  /**
   * The builder calls made by helper uses over `fields` in order, when the
   * i-th Marshall call would report `oks[i]`: each helper either continues
   * or cleans the build and leaves.
   */
  function HelperChainLog(fields: seq<Field>, oks: seq<bool>): (log: seq<BuildEvent>)
    requires |oks| == |fields|
    ensures |log| <= |fields| + 1
    ensures Cleaned in log <==> false in oks
  {
    if |fields| == 0 then []
    else if oks[0] then [MarshallCalled(fields[0], true)] + HelperChainLog(fields[1..], oks[1..])
    else [MarshallCalled(fields[0], false), Cleaned]
  }

  /**
   * One PACKET_MARSHALL_HELPER or RAWDATA_MARSHALL_HELPER (they differ only
   * in the Marshall function they name, which `f` selects).  `aborted` means
   * that the macro ran `return -1` in the enclosing function.
   */
  method MarshallHelper(b: PacketBuilder, f: Field, ok: bool) returns (aborted: bool)
    modifies b
    ensures aborted == !ok
    ensures b.log == old(b.log) + HelperChainLog([f], [ok])
    ensures b.fields == (if ok then old(b.fields) + [f] else [])
  {
    var ret := b.Marshall(f, ok);
    aborted := !ret;
    if aborted {
      b.CleanBuild();
    }
  }

  /**
   * Consecutive helper uses over an ordered field list: the function they
   * sit in returns -1 at the first failed field, after exactly one
   * CleanBuild, and carries on (returns 0 here) when every field was
   * written.
   */
  method MarshallFields(b: PacketBuilder, fields: seq<Field>, oks: seq<bool>) returns (ret: int)
    requires |oks| == |fields|
    modifies b
    ensures ret == (if FirstFailure(oks) == |fields| then 0 else -1)
    ensures b.log == old(b.log) + HelperChainLog(fields, oks)
    ensures b.fields == (if ret == 0 then old(b.fields) + fields else [])
  {
    var i := 0;
    while i < |fields|
      invariant 0 <= i <= |fields|
      invariant forall j :: 0 <= j < i ==> oks[j]
      invariant b.log + HelperChainLog(fields[i..], oks[i..]) == old(b.log) + HelperChainLog(fields, oks)
      invariant b.fields == old(b.fields) + fields[..i]
    {
      assert fields[i..][1..] == fields[i + 1..] && oks[i..][1..] == oks[i + 1..];
      var aborted := MarshallHelper(b, fields[i], oks[i]);
      if aborted {
        return -1;
      }
      assert fields[..i + 1] == fields[..i] + [fields[i]];
      i := i + 1;
    }
    assert fields[..i] == fields;
    return 0;
  }

  /**
   * The helper chain fails fast: with k the first failing field, exactly
   * the fields up to and including k are attempted, in order, CleanBuild
   * follows the failure once, and nothing is cleaned when every field is
   * written.
   */
  lemma {:induction false} HelperChainFailsFast(fields: seq<Field>, oks: seq<bool>)
    requires |oks| == |fields|
    ensures var k := FirstFailure(oks);
      var log := HelperChainLog(fields, oks);
      && |log| == (if k < |fields| then k + 2 else k)
      && (forall i :: 0 <= i <= k && i < |fields| ==> log[i] == MarshallCalled(fields[i], oks[i]))
      && (k < |fields| ==> log[k + 1] == Cleaned)
      && multiset(log)[Cleaned] == (if k < |fields| then 1 else 0)
  {
    var k := FirstFailure(oks);
    var log := HelperChainLog(fields, oks);
    if |fields| > 0 && !oks[0] {
      assert k == 0;
      assert log == [MarshallCalled(fields[0], false), Cleaned];
    } else if |fields| > 0 {
      var k' := FirstFailure(oks[1..]);
      var rest := HelperChainLog(fields[1..], oks[1..]);
      HelperChainFailsFast(fields[1..], oks[1..]);
      assert k == k' + 1;
      assert log == [MarshallCalled(fields[0], true)] + rest;
      forall i | 0 <= i <= k && i < |fields|
        ensures log[i] == MarshallCalled(fields[i], oks[i])
      {
        if i > 0 {
          assert log[i] == rest[i - 1];
        }
      }
      assert multiset(log)[Cleaned] == multiset(rest)[Cleaned] by {
        assert multiset(log) == multiset{MarshallCalled(fields[0], true)} + multiset(rest);
      }
    }
  }

  // ---------------------------------------------------------------------
  // DMS_FREE

  type Address = nat

  /** A pointer variable, the lvalue `a` that DMS_FREE(a) assigns. */
  class PointerVar {
    var target: Option<Address>   // None is NULL

    constructor (t: Option<Address>)
      ensures target == t
    {
      target := t;
    }
  }

  /** What one DMS_FREE releases when the variable holds `target`. */
  function DmsFreeReleases(target: Option<Address>): seq<Address> {
    if target.Some? then [target.value] else []
  }

  /** The allocator behind free() / OhosFree(). */
  class Allocator {
    ghost var released: seq<Address>   // every block handed to free(), in order

    constructor ()
      ensures released == []
    {
      released := [];
    }

    /**
     * DMS_FREE(a): frees a non-NULL target once and sets the variable to
     * NULL; a NULL variable is left alone.
     */
    method DmsFree(a: PointerVar)
      modifies this, a
      ensures a.target == None
      ensures released == old(released) + DmsFreeReleases(old(a.target))
    {
      if a.target != None {
        released := released + [a.target.value];
        a.target := None;
      }
    }
  }

  /**
   * DMS_FREE applied twice to the same variable: the second application
   * finds NULL and releases nothing, so the block is released once.
   */
  method DmsFreeTwice(al: Allocator, p: PointerVar)
    modifies al, p
    ensures al.released == old(al.released) + DmsFreeReleases(old(p.target)) && p.target == None
  {
    al.DmsFree(p);
    al.DmsFree(p);
  }
}
