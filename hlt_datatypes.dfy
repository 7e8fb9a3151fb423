/**
 * The HLT component data-type descriptor: an 8-byte ID and a 4-byte origin,
 * with wildcard comparison, origin merge, the two initialisers and the
 * conversions to and from the 12-byte ZMQ topic (AliHLTDataTypes.h).
 *
 * Bytes are `char`; the fixed-size C arrays `fID[8]` and `fOrigin[4]` are
 * sequences whose length the subset types pin down.  A C string argument is a
 * sequence that holds at least the bytes the code reads.
 */
module HltDataTypes {

  /** kAliHLTComponentDataTypefOriginSize */
  const OriginSize: nat := 4
  /** kAliHLTComponentDataTypefIDsize */
  const IdSize: nat := 8
  /** kAliHLTComponentDataTypeTopicSize */
  const TopicSize: nat := IdSize + OriginSize
  /** sizeof(AliHLTComponentDataType): a 32-bit size word, the ID and the origin */
  const DataTypeStructSize: nat := 16

  type uint32 = x: int | 0 <= x < 0x1_0000_0000

  type IdField = s: seq<char> | |s| == IdSize
    witness ['\0', '\0', '\0', '\0', '\0', '\0', '\0', '\0']

  type OriginField = s: seq<char> | |s| == OriginSize
    witness ['\0', '\0', '\0', '\0']

  /** kAliHLTDataOriginVoid: "\0\0\0" with its terminator, four NULs */
  const VoidOrigin: OriginField := ['\0', '\0', '\0', '\0']
  /** kAliHLTDataOriginAny: "***" with its terminator */
  const AnyOrigin: OriginField := ['*', '*', '*', '\0']
  /** kAliHLTVoidDataTypeID: eight NULs */
  const VoidId: IdField := ['\0', '\0', '\0', '\0', '\0', '\0', '\0', '\0']
  /** kAliHLTAllDataTypesID: "ALLDATA" with its terminator */
  const AllDataTypesId: IdField := ['A', 'L', 'L', 'D', 'A', 'T', 'A', '\0']
  /** kAliHLTAnyDataTypeID: seven '*' with the terminator */
  const AnyDataTypeId: IdField := ['*', '*', '*', '*', '*', '*', '*', '\0']

  /** AliHLTComponentDataType */
  datatype ComponentDataType = ComponentDataType(structSize: uint32, id: IdField, origin: OriginField)

  /** AliHLTComponentBlockData, reduced to the members the topic conversions read */
  datatype BlockData = BlockData(dataType: ComponentDataType, specification: uint32)

  const VoidDataType: ComponentDataType := ComponentDataType(DataTypeStructSize, VoidId, VoidOrigin)
  const AllDataTypes: ComponentDataType := ComponentDataType(DataTypeStructSize, AllDataTypesId, AnyOrigin)
  const AnyDataType: ComponentDataType := ComponentDataType(DataTypeStructSize, AnyDataTypeId, AnyOrigin)

  function Min(a: int, b: int): int { if a < b then a else b }

  // ---------------------------------------------------------------------------
  // Topic comparison
  // ---------------------------------------------------------------------------

  /** A topic byte that matches every other byte: '*' or NUL */
  predicate Wildcard(c: char) { c == '*' || c == '\0' }

  /** Two topic bytes conflict when neither is a wildcard and they differ */
  predicate Conflict(a: char, b: char) { !Wildcard(a) && !Wildcard(b) && a != b }

  /** The first n bytes of two topics are pairwise free of conflicts */
  predicate TopicsAgree(topic: seq<char>, reference: seq<char>, n: int)
    requires n <= |topic| && n <= |reference|
  {
    forall i | 0 <= i < n :: !Conflict(topic[i], reference[i])
  }

  /**
   * Topicncmp: compares the first min(topicSize, referenceSize) bytes and is
   * false exactly when one of those byte pairs conflicts.
   */
  method Topicncmp(topic: seq<char>, reference: seq<char>, topicSize: int, referenceSize: int)
    returns (r: bool)
    requires Min(topicSize, referenceSize) <= |topic| && Min(topicSize, referenceSize) <= |reference|
    ensures !r <==> exists i | 0 <= i < Min(topicSize, referenceSize) :: Conflict(topic[i], reference[i])
  {
    var i := 0;
    while i < Min(topicSize, referenceSize)
      invariant 0 <= i
      invariant i <= Min(topicSize, referenceSize) || i == 0
      invariant forall k | 0 <= k < i :: !Conflict(topic[k], reference[k])
    {
      if !(topic[i] == '*' || reference[i] == '*' ||
           topic[i] == '\0' || reference[i] == '\0' ||
           topic[i] == reference[i]) {
        return false;
      }
      i := i + 1;
    }
    return true;
  }

  // ---------------------------------------------------------------------------
  // Exact and wildcard equality of data types
  // ---------------------------------------------------------------------------

  /** All 8 ID bytes and all 4 origin bytes are equal; fStructSize plays no part */
  predicate SameDescriptor(dt1: ComponentDataType, dt2: ComponentDataType)
  {
    dt1.id == dt2.id && dt1.origin == dt2.origin
  }

  /** MatchExactly: byte-wise comparison of ID and origin */
  method MatchExactly(dt1: ComponentDataType, dt2: ComponentDataType) returns (r: bool)
    ensures r <==> dt1.id == dt2.id && dt1.origin == dt2.origin
  {
    for i := 0 to IdSize
      invariant forall k | 0 <= k < i :: dt1.id[k] == dt2.id[k]
    {
      if dt1.id[i] != dt2.id[i] {
        return false;
      }
    }
    for i := 0 to OriginSize
      invariant forall k | 0 <= k < i :: dt1.origin[k] == dt2.origin[k]
    {
      if dt1.origin[i] != dt2.origin[i] {
        return false;
      }
    }
    return true;
  }

  /** s and pattern agree on their first n bytes */
  predicate Agrees(s: seq<char>, pattern: seq<char>, n: int)
    requires 0 <= n <= |s| && n <= |pattern|
  {
    forall k | 0 <= k < n :: s[k] == pattern[k]
  }

  /** Extending an agreement by one byte */
  lemma AgreesStep(s: seq<char>, pattern: seq<char>, i: int)
    requires 0 <= i < |s| && i < |pattern|
    ensures Agrees(s, pattern, i + 1) == (Agrees(s, pattern, i) && s[i] == pattern[i])
  {
  }

  /** The test of operator== after each byte, on the accumulated flags */
  predicate StepAllows(same: bool, any1: bool, any2: bool, void1: bool, void2: bool)
  {
    same || (any2 && !void1) || (any1 && !void2)
  }

  /** The origin test after the first n origin bytes */
  predicate OriginPrefixAllows(o1: OriginField, o2: OriginField, n: int)
    requires 0 <= n <= OriginSize
  {
    StepAllows(Agrees(o1, o2, n), Agrees(o1, AnyOrigin, n), Agrees(o2, AnyOrigin, n),
               Agrees(o1, VoidOrigin, n), Agrees(o2, VoidOrigin, n))
  }

  /**
   * The ID test after the first n ID bytes.  The void flags are not reset
   * after the origin pass, so an ID counts as void only when its whole origin
   * is void as well.
   */
  predicate IdPrefixAllows(dt1: ComponentDataType, dt2: ComponentDataType, n: int)
    requires 0 <= n <= IdSize
  {
    StepAllows(Agrees(dt1.id, dt2.id, n), Agrees(dt1.id, AnyDataTypeId, n), Agrees(dt2.id, AnyDataTypeId, n),
               Agrees(dt1.origin, VoidOrigin, OriginSize) && Agrees(dt1.id, VoidId, n),
               Agrees(dt2.origin, VoidOrigin, OriginSize) && Agrees(dt2.id, VoidId, n))
  }

  /**
   * Wildcard equality of data types: either side is exactly the all-data-types
   * entry, or the test passes after every origin byte and after every ID byte.
   */
  predicate Matches(dt1: ComponentDataType, dt2: ComponentDataType)
  {
    || SameDescriptor(dt1, AllDataTypes)
    || SameDescriptor(dt2, AllDataTypes)
    || ((forall n | 1 <= n <= OriginSize :: OriginPrefixAllows(dt1.origin, dt2.origin, n)) &&
        (forall n | 1 <= n <= IdSize :: IdPrefixAllows(dt1, dt2, n)))
  }

  /**
   * The origin pass of operator==: accumulates the any, void and match flags
   * byte by byte and stops at the first byte where the test fails.  On success
   * it hands the void flags on to the ID pass.
   */
  method OriginPass(dt1: ComponentDataType, dt2: ComponentDataType) returns (ok: bool, void1: bool, void2: bool)
    ensures ok == forall n | 1 <= n <= OriginSize :: OriginPrefixAllows(dt1.origin, dt2.origin, n)
    ensures ok ==> void1 == Agrees(dt1.origin, VoidOrigin, OriginSize) && void2 == Agrees(dt2.origin, VoidOrigin, OriginSize)
  {
    var any1, any2, same := true, true, true;
    void1, void2 := true, true;
    for i := 0 to OriginSize
      invariant any1 == Agrees(dt1.origin, AnyOrigin, i) && any2 == Agrees(dt2.origin, AnyOrigin, i)
      invariant void1 == Agrees(dt1.origin, VoidOrigin, i) && void2 == Agrees(dt2.origin, VoidOrigin, i)
      invariant same == Agrees(dt1.origin, dt2.origin, i)
      invariant forall n | 1 <= n <= i :: OriginPrefixAllows(dt1.origin, dt2.origin, n)
    {
      AgreesStep(dt1.origin, AnyOrigin, i);
      AgreesStep(dt2.origin, AnyOrigin, i);
      AgreesStep(dt1.origin, VoidOrigin, i);
      AgreesStep(dt2.origin, VoidOrigin, i);
      AgreesStep(dt1.origin, dt2.origin, i);
      any1 := any1 && dt1.origin[i] == AnyOrigin[i];
      any2 := any2 && dt2.origin[i] == AnyOrigin[i];
      void1 := void1 && dt1.origin[i] == VoidOrigin[i];
      void2 := void2 && dt2.origin[i] == VoidOrigin[i];
      same := same && dt1.origin[i] == dt2.origin[i];
      if !(same || (any2 && !void1) || (any1 && !void2)) {
        assert !OriginPrefixAllows(dt1.origin, dt2.origin, i + 1);
        return false, void1, void2;
      }
    }
    ok := true;
  }

  /**
   * The ID pass of operator==: the any and match flags start afresh, the void
   * flags continue from the origin pass.
   */
  method IdPass(dt1: ComponentDataType, dt2: ComponentDataType, void1In: bool, void2In: bool) returns (ok: bool)
    requires void1In == Agrees(dt1.origin, VoidOrigin, OriginSize) && void2In == Agrees(dt2.origin, VoidOrigin, OriginSize)
    ensures ok == forall n | 1 <= n <= IdSize :: IdPrefixAllows(dt1, dt2, n)
  {
    var any1, any2, void1, void2, same := true, true, void1In, void2In, true;
    for i := 0 to IdSize
      invariant any1 == Agrees(dt1.id, AnyDataTypeId, i) && any2 == Agrees(dt2.id, AnyDataTypeId, i)
      invariant void1 == (void1In && Agrees(dt1.id, VoidId, i))
      invariant void2 == (void2In && Agrees(dt2.id, VoidId, i))
      invariant same == Agrees(dt1.id, dt2.id, i)
      invariant forall n | 1 <= n <= i :: IdPrefixAllows(dt1, dt2, n)
    {
      AgreesStep(dt1.id, AnyDataTypeId, i);
      AgreesStep(dt2.id, AnyDataTypeId, i);
      AgreesStep(dt1.id, VoidId, i);
      AgreesStep(dt2.id, VoidId, i);
      AgreesStep(dt1.id, dt2.id, i);
      any1 := any1 && dt1.id[i] == AnyDataTypeId[i];
      any2 := any2 && dt2.id[i] == AnyDataTypeId[i];
      void1 := void1 && dt1.id[i] == VoidId[i];
      void2 := void2 && dt2.id[i] == VoidId[i];
      same := same && dt1.id[i] == dt2.id[i];
      if !(same || (any2 && !void1) || (any1 && !void2)) {
        assert !IdPrefixAllows(dt1, dt2, i + 1);
        return false;
      }
    }
    ok := true;
  }

  /** operator== on data types: the all-data-types short-circuit, then the two passes */
  method Equals(dt1: ComponentDataType, dt2: ComponentDataType) returns (r: bool)
    ensures r == Matches(dt1, dt2)
  {
    var exact := MatchExactly(dt1, AllDataTypes);
    if exact { return true; }
    exact := MatchExactly(dt2, AllDataTypes);
    if exact { return true; }
    var originOk, void1, void2 := OriginPass(dt1, dt2);
    if !originOk { return false; }
    r := IdPass(dt1, dt2, void1, void2);
  }

  /** operator!=: the negation of operator== */
  method NotEquals(dt1: ComponentDataType, dt2: ComponentDataType) returns (r: bool)
    ensures r == !Matches(dt1, dt2)
  {
    var eq := Equals(dt1, dt2);
    r := !eq;
  }

  lemma MatchesReflexive(dt: ComponentDataType)
    ensures Matches(dt, dt)
  {
  }

  lemma MatchesSymmetric(dt1: ComponentDataType, dt2: ComponentDataType)
    ensures Matches(dt1, dt2) == Matches(dt2, dt1)
  {
    forall n | 1 <= n <= OriginSize
      ensures OriginPrefixAllows(dt1.origin, dt2.origin, n) == OriginPrefixAllows(dt2.origin, dt1.origin, n)
    {
      assert Agrees(dt1.origin, dt2.origin, n) == Agrees(dt2.origin, dt1.origin, n);
    }
    forall n | 1 <= n <= IdSize
      ensures IdPrefixAllows(dt1, dt2, n) == IdPrefixAllows(dt2, dt1, n)
    {
      assert Agrees(dt1.id, dt2.id, n) == Agrees(dt2.id, dt1.id, n);
    }
  }

  /** The all-data-types entry short-circuits the comparison on either side */
  lemma AllDataTypesMatchesEverything(dt: ComponentDataType)
    ensures Matches(AllDataTypes, dt) && Matches(dt, AllDataTypes)
  {
  }

  /** Exact equality implies wildcard equality, whatever fStructSize holds */
  lemma MatchExactlyImpliesMatches(dt1: ComponentDataType, dt2: ComponentDataType)
    requires SameDescriptor(dt1, dt2)
    ensures Matches(dt1, dt2)
  {
  }

  /**
   * The any-data-type wildcard equals exactly the data types whose origin does
   * not start with NUL: the ID plays no part, because the carried-over void flag
   * of a non-void origin is already false when the ID pass starts.
   */
  lemma AnyDataTypeMatches(dt: ComponentDataType)
    ensures Matches(AnyDataType, dt) <==> dt.origin[0] != '\0'
  {
    if dt.origin[0] == '\0' {
      assert !OriginPrefixAllows(AnyDataType.origin, dt.origin, 1);
    } else {
      forall n | 1 <= n <= OriginSize
        ensures OriginPrefixAllows(AnyDataType.origin, dt.origin, n)
      {
        assert !Agrees(dt.origin, VoidOrigin, n);
      }
      assert !Agrees(dt.origin, VoidOrigin, OriginSize);
      forall n | 1 <= n <= IdSize
        ensures IdPrefixAllows(AnyDataType, dt, n)
      {
        assert Agrees(AnyDataType.id, AnyDataTypeId, n);
      }
    }
  }

  /** The void data type equals only itself and the all-data-types entry */
  lemma VoidDataTypeMatches(dt: ComponentDataType)
    ensures Matches(VoidDataType, dt) <==> SameDescriptor(dt, VoidDataType) || SameDescriptor(dt, AllDataTypes)
  {
    if Matches(VoidDataType, dt) && !SameDescriptor(dt, AllDataTypes) {
      assert !SameDescriptor(VoidDataType, AllDataTypes);
      forall k | 0 <= k < OriginSize
        ensures dt.origin[k] == VoidOrigin[k]
      {
        assert OriginPrefixAllows(VoidDataType.origin, dt.origin, k + 1);
        assert VoidOrigin[0] != AnyOrigin[0];
      }
      assert dt.origin == VoidOrigin;
      forall k | 0 <= k < IdSize
        ensures dt.id[k] == VoidId[k]
      {
        assert IdPrefixAllows(VoidDataType, dt, k + 1);
        assert VoidId[0] != AnyDataTypeId[0];
        assert Agrees(VoidDataType.origin, VoidOrigin, OriginSize) && Agrees(VoidDataType.id, VoidId, k + 1);
      }
      assert dt.id == VoidId;
    }
  }

  /** The any-data-type wildcard never equals the void data type */
  lemma AnyNeverMatchesVoid()
    ensures !Matches(AnyDataType, VoidDataType) && !Matches(VoidDataType, AnyDataType)
  {
    AnyDataTypeMatches(VoidDataType);
    MatchesSymmetric(AnyDataType, VoidDataType);
  }

  /**
   * A data type with the wildcard origin equals the same ID under every
   * origin that does not start with NUL (a detector origin merged with `|`).
   */
  lemma AnyOriginMatchesSameId(dt: ComponentDataType, origin: OriginField)
    requires origin[0] != '\0'
    ensures Matches(WithOrigin(dt, AnyOrigin), WithOrigin(dt, origin))
  {
    var dt1, dt2 := WithOrigin(dt, AnyOrigin), WithOrigin(dt, origin);
    forall n | 1 <= n <= OriginSize
      ensures OriginPrefixAllows(dt1.origin, dt2.origin, n)
    {
      assert !Agrees(dt2.origin, VoidOrigin, n);
    }
    forall n | 1 <= n <= IdSize
      ensures IdPrefixAllows(dt1, dt2, n)
    {
    }
  }

  // ---------------------------------------------------------------------------
  // Origin merge
  // ---------------------------------------------------------------------------

  /** The data type with its origin replaced */
  function WithOrigin(dt: ComponentDataType, origin: OriginField): (r: ComponentDataType)
  {
    dt.(origin := origin)
  }

  /**
   * operator|: copies the first four bytes of origin into a copy of srcdt;
   * the ID and fStructSize stay those of srcdt
   */
  method MergeOrigin(srcdt: ComponentDataType, origin: seq<char>) returns (dt: ComponentDataType)
    requires OriginSize <= |origin|
    ensures dt == WithOrigin(srcdt, origin[..OriginSize])
    ensures dt.origin == origin[..OriginSize] && dt.id == srcdt.id && dt.structSize == srcdt.structSize
  {
    dt := srcdt;
    for i := 0 to OriginSize
      invariant dt.id == srcdt.id && dt.structSize == srcdt.structSize
      invariant forall k | 0 <= k < i :: dt.origin[k] == origin[k]
    {
      dt := dt.(origin := dt.origin[i := origin[i]]);
    }
    assert dt.origin == origin[..OriginSize];
  }

  /** (dt|o1)|o2 == dt|o2 */
  lemma MergeLastOriginWins(dt: ComponentDataType, o1: OriginField, o2: OriginField)
    ensures WithOrigin(WithOrigin(dt, o1), o2) == WithOrigin(dt, o2)
  {
  }

  // ---------------------------------------------------------------------------
  // Initialisers
  // ---------------------------------------------------------------------------

  /** The bytes the code may read from s when it copies at most n bytes up to a NUL */
  predicate Readable(s: seq<char>, n: nat)
  {
    n <= |s| || '\0' in s
  }

  /** How many bytes of s are copied into an n-byte field: up to the first NUL, at most n */
  function CopiedLength(s: seq<char>, n: nat): (k: nat)
    requires Readable(s, n)
    ensures k <= n && k <= |s|
    ensures forall j | 0 <= j < k :: s[j] != '\0'
    ensures k < n ==> s[k] == '\0'
    decreases n
  {
    if n == 0 || s[0] == '\0' then 0
    else
      assert '\0' in s ==> '\0' in s[1..] by {
        if '\0' in s {
          var j :| 0 <= j < |s| && s[j] == '\0';
          assert s[1..][j - 1] == '\0';
        }
      }
      1 + CopiedLength(s[1..], n - 1)
  }

  /** n copies of c: the NUL tail of a C-string field, or the space padding */
  function Filled(n: nat, c: char): (r: seq<char>)
    ensures |r| == n && forall i | 0 <= i < n :: r[i] == c
  {
    seq(n, _ => c)
  }

  /**
   * The n-byte field the NUL-terminated initialiser produces from s: the bytes
   * before the first NUL (at most n), the rest NUL.
   */
  function CStringField(s: seq<char>, n: nat): (r: seq<char>)
    requires Readable(s, n)
    ensures |r| == n
    ensures forall i | 0 <= i < n :: r[i] == if i < CopiedLength(s, n) then s[i] else '\0'
  {
    var k := CopiedLength(s, n);
    s[..k] + Filled(n - k, '\0')
  }

  /**
   * AliHLTComponentDataTypeInitializer(id, origin): starts from the void data
   * type and copies ID bytes up to the first NUL (at most 8) and origin bytes up
   * to the first NUL (at most 4).
   */
  method Initializer(id: seq<char>, origin: seq<char>) returns (dt: ComponentDataType)
    requires Readable(id, IdSize) && Readable(origin, OriginSize)
    ensures dt == ComponentDataType(DataTypeStructSize, CStringField(id, IdSize), CStringField(origin, OriginSize))
  {
    dt := VoidDataType;
    var field := CopyUpToNul(dt.id, id);
    dt := dt.(id := field);
    field := CopyUpToNul(dt.origin, origin);
    dt := dt.(origin := field);
  }

  /**
   * One copy loop of the initialiser: overwrites the bytes of an all-NUL field
   * with those of s, stopping at the first NUL of s or at the end of the field.
   */
  method CopyUpToNul(field: seq<char>, s: seq<char>) returns (r: seq<char>)
    requires field == Filled(|field|, '\0') && Readable(s, |field|)
    ensures r == CStringField(s, |field|)
  {
    r := field;
    ghost var k := CopiedLength(s, |field|);
    var i := 0;
    while i < |field| && s[i] != '\0'
      invariant 0 <= i <= k
      invariant |r| == |field|
      invariant forall j | 0 <= j < |field| :: r[j] == if j < i then s[j] else '\0'
    {
      r := r[i := s[i]];
      i := i + 1;
    }
  }

  /**
   * AliHLTComponentDataTypeInitializer(src, origin): the NUL-terminated
   * initialiser applied to the ID of src.
   */
  method InitializerFromType(src: ComponentDataType, origin: seq<char>) returns (dt: ComponentDataType)
    requires Readable(origin, OriginSize)
    ensures dt == ComponentDataType(DataTypeStructSize, CStringField(src.id, IdSize), CStringField(origin, OriginSize))
  {
    dt := Initializer(src.id, origin);
  }

  /** A field is NUL-normal when every byte after its first NUL is NUL as well */
  predicate NulNormal(s: seq<char>)
  {
    forall i, j | 0 <= i < j < |s| :: s[i] == '\0' ==> s[j] == '\0'
  }

  /** The initialiser keeps a NUL-normal field (such as the void, any and all IDs) unchanged */
  lemma {:induction false} CStringFieldKeepsNormalField(s: seq<char>)
    requires NulNormal(s)
    ensures CStringField(s, |s|) == s
  {
    var k := CopiedLength(s, |s|);
    forall i | 0 <= i < |s|
      ensures CStringField(s, |s|)[i] == s[i]
    {
      if k <= i {
        assert s[k] == '\0';
        if k < i { assert s[i] == '\0'; }
      }
    }
  }

  lemma ConstantIdsAreNulNormal()
    ensures NulNormal(VoidId) && NulNormal(AnyDataTypeId) && NulNormal(AllDataTypesId)
    ensures NulNormal(VoidOrigin) && NulNormal(AnyOrigin)
  {
  }

  /** strlen: the index of the first NUL */
  function CStrLen(s: seq<char>): (n: nat)
    requires '\0' in s
    ensures n < |s| && s[n] == '\0'
    ensures forall j | 0 <= j < n :: s[j] != '\0'
  {
    if s[0] == '\0' then 0
    else
      assert '\0' in s[1..] by {
        var j :| 0 <= j < |s| && s[j] == '\0';
        assert s[1..][j - 1] == '\0';
      }
      1 + CStrLen(s[1..])
  }

  /** The first min(n, strlen(s)) bytes of s, right-padded with spaces to n bytes */
  function PaddedField(s: seq<char>, n: nat): (r: seq<char>)
    requires '\0' in s
    ensures |r| == n
    ensures forall i | 0 <= i < n :: r[i] == if i < CStrLen(s) then s[i] else ' '
  {
    var m := Min(n, CStrLen(s));
    s[..m] + Filled(n - m, ' ')
  }

  /** A buffer with no NUL in its first n bytes is copied in full */
  lemma {:induction false} NoNulCopiedInFull(s: seq<char>, n: nat)
    requires n <= |s|
    requires forall j | 0 <= j < n :: s[j] != '\0'
    ensures CopiedLength(s, n) == n
    decreases n
  {
    if n > 0 {
      NoNulCopiedInFull(s[1..], n - 1);
    }
  }

  /** The initialiser copies a space-padded, NUL-terminated buffer in full */
  lemma PaddedBufferCopiedInFull(buffer: seq<char>, s: seq<char>, n: nat)
    requires '\0' in s && |buffer| == n + 1
    requires forall k | 0 <= k < n :: buffer[k] == if k < Min(n, CStrLen(s)) then s[k] else ' '
    ensures Readable(buffer, n) && CStringField(buffer, n) == PaddedField(s, n)
  {
    forall k | 0 <= k < n
      ensures buffer[k] != '\0'
    {
      if k < Min(n, CStrLen(s)) {
        assert buffer[k] == s[k];
      }
    }
    NoNulCopiedInFull(buffer, n);
    assert CStringField(buffer, n) == PaddedField(s, n);
  }

  /**
   * AliHLTComponentDataTypeInitializerWithPadding: builds space-padded,
   * NUL-terminated copies of ID and origin in local buffers and hands them to
   * the NUL-terminated initialiser.
   */
  method InitializerWithPadding(id: seq<char>, origin: seq<char>) returns (dt: ComponentDataType)
    requires '\0' in id && '\0' in origin
    ensures dt == ComponentDataType(DataTypeStructSize, PaddedField(id, IdSize), PaddedField(origin, OriginSize))
  {
    var src := new char[IdSize + 1];
    var org := new char[OriginSize + 1];
    FillPadded(src, id);
    FillPadded(org, origin);
    PaddedBufferCopiedInFull(src[..], id, IdSize);
    PaddedBufferCopiedInFull(org[..], origin, OriginSize);
    dt := Initializer(src[..], org[..]);
  }

  /**
   * The buffer filling of the padding initialiser: the first min(n, strlen(s))
   * bytes of s, then spaces up to n bytes, then a NUL, for a buffer of n + 1 bytes.
   */
  method FillPadded(buffer: array<char>, s: seq<char>)
    requires '\0' in s && buffer.Length >= 1
    modifies buffer
    ensures buffer[buffer.Length - 1] == '\0'
    ensures forall k | 0 <= k < buffer.Length - 1 ::
      buffer[k] == if k < Min(buffer.Length - 1, CStrLen(s)) then s[k] else ' '
  {
    var n := buffer.Length - 1;
    var max := Min(n, CStrLen(s));
    var j := 0;
    while j < max
      invariant 0 <= j <= max
      invariant forall k | 0 <= k < j :: buffer[k] == s[k]
    {
      buffer[j] := s[j];
      j := j + 1;
    }
    while j < n
      invariant max <= j <= n
      invariant forall k | 0 <= k < j :: buffer[k] == if k < max then s[k] else ' '
    {
      buffer[j] := ' ';
      j := j + 1;
    }
    buffer[j] := '\0';
  }

  // ---------------------------------------------------------------------------
  // Topics
  // ---------------------------------------------------------------------------

  /** The 12 topic bytes of a data type: the ID followed by the origin */
  function TopicOf(dt: ComponentDataType): (r: seq<char>)
    ensures |r| == TopicSize && r[..IdSize] == dt.id && r[IdSize..] == dt.origin
  {
    dt.id + dt.origin
  }

  /**
   * AliHLTComponentDataType::operator=(topic): the first 8 topic bytes become
   * the ID, the next 4 the origin; fStructSize is kept.
   */
  function AssignTopic(dt: ComponentDataType, topic: seq<char>): (r: ComponentDataType)
    requires TopicSize <= |topic|
    ensures r.structSize == dt.structSize
    ensures forall i | 0 <= i < IdSize :: r.id[i] == topic[i]
    ensures forall i | 0 <= i < OriginSize :: r.origin[i] == topic[IdSize + i]
  {
    dt.(id := topic[..IdSize], origin := topic[IdSize..TopicSize])
  }

  /** Assigning the topic of dt to a data type restores dt's ID and origin */
  lemma TopicRoundTrip(dt: ComponentDataType, target: ComponentDataType)
    ensures AssignTopic(target, TopicOf(dt)) == dt.(structSize := target.structSize)
  {
  }

  /** A topic whose every byte is a wildcard is compatible with every topic */
  lemma WildcardTopicMatchesAll(wild: seq<char>, other: seq<char>)
    requires |wild| == TopicSize && |other| == TopicSize
    requires forall i | 0 <= i < TopicSize :: Wildcard(wild[i])
    ensures TopicsAgree(wild, other, TopicSize) && TopicsAgree(other, wild, TopicSize)
  {
  }

  /**
   * Unlike operator== on data types, the topic comparison
   * lets the void topic match the any topic: both consist of wildcard bytes only.
   */
  lemma VoidTopicMatchesAnyTopic()
    ensures TopicsAgree(TopicOf(VoidDataType), TopicOf(AnyDataType), TopicSize)
    ensures !Matches(VoidDataType, AnyDataType)
  {
    WildcardTopicMatchesAll(TopicOf(VoidDataType), TopicOf(AnyDataType));
    AnyNeverMatchesVoid();
  }

  /** AliHLTDataTopic: a 12-byte topic and a data specification */
  class DataTopic {
    const topic: array<char>
    var specification: uint32

    ghost predicate Valid()
      reads this
    {
      topic.Length == TopicSize
    }

    /** Default constructor: a value-initialised (all NUL) topic and specification 0 */
    constructor ()
      ensures Valid() && fresh(topic)
      ensures topic[..] == Filled(TopicSize, '\0') && specification == 0
    {
      topic := new char[TopicSize](_ => '\0');
      specification := 0;
    }

    /** Built from a data type: its ID and origin, specification 0 */
    constructor FromDataType(dataType: ComponentDataType)
      ensures Valid() && fresh(topic)
      ensures topic[..] == TopicOf(dataType) && specification == 0
    {
      topic := new char[TopicSize](i requires 0 <= i < TopicSize => TopicOf(dataType)[i]);
      specification := 0;
    }

    /** Built from a block descriptor: its data type and its specification */
    constructor FromBlockData(blockData: BlockData)
      ensures Valid() && fresh(topic)
      ensures topic[..] == TopicOf(blockData.dataType) && specification == blockData.specification
    {
      topic := new char[TopicSize](i requires 0 <= i < TopicSize => TopicOf(blockData.dataType)[i]);
      specification := blockData.specification;
    }

    /** operator=(dataType): overwrites the topic bytes and keeps the specification */
    method AssignDataType(dataType: ComponentDataType)
      requires Valid()
      modifies topic
      ensures topic[..] == TopicOf(dataType)
      ensures specification == old(specification)
    {
      forall i | 0 <= i < TopicSize {
        topic[i] := TopicOf(dataType)[i];
      }
    }

    /** operator=(blockData): overwrites the topic bytes and copies the specification */
    method AssignBlockData(blockData: BlockData)
      requires Valid()
      modifies this, topic
      ensures topic[..] == TopicOf(blockData.dataType)
      ensures specification == blockData.specification
    {
      forall i | 0 <= i < TopicSize {
        topic[i] := TopicOf(blockData.dataType)[i];
      }
      specification := blockData.specification;
    }

    /** operator==: Topicncmp(other, this) over the full topic size; the specifications play no part */
    method Equals(other: DataTopic) returns (r: bool)
      requires Valid() && other.Valid()
      ensures r <==> TopicsAgree(other.topic[..], topic[..], TopicSize)
    {
      r := Topicncmp(other.topic[..], topic[..], TopicSize, TopicSize);
    }

    /** GetID: the first 8 topic bytes */
    function GetID(): (r: IdField)
      reads this, topic
      requires Valid()
      ensures forall i | 0 <= i < IdSize :: r[i] == topic[i]
    {
      topic[..IdSize]
    }

    /** GetOrigin: the 4 topic bytes after the ID */
    function GetOrigin(): (r: OriginField)
      reads this, topic
      requires Valid()
      ensures forall i | 0 <= i < OriginSize :: r[i] == topic[IdSize + i]
    {
      topic[IdSize..TopicSize]
    }
  }

  /**
   * A topic built from a data type gives back its ID and origin, and
   * assigning it back to a data type restores both.
   */
  method TopicConversion(dt: ComponentDataType, target: ComponentDataType) returns (id: IdField, origin: OriginField, back: ComponentDataType)
    ensures id == dt.id && origin == dt.origin
    ensures back == dt.(structSize := target.structSize)
  {
    var t := new DataTopic.FromDataType(dt);
    id, origin := t.GetID(), t.GetOrigin();
    back := AssignTopic(target, t.topic[..]);
  }
}
