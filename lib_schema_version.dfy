/** CheckMySQLSchemaVersion of
    examples/golang_grpc/internal/lib/CheckMySQLSchemaVersion.go: read the
    migration row and accept it when its version is the expected one and it is
    not dirty. The query and the scan are abstracted into their result. */
module SchemaVersion {

  const TwoTo32: int := 0x1_0000_0000
  const TwoTo64: int := 0x1_0000_0000_0000_0000

  type int32 = x: int | -0x8000_0000 <= x < 0x8000_0000
  /** Go's uint, taken to be 64 bits wide. */
  type uint = x: int | 0 <= x < 0x1_0000_0000_0000_0000

  /** What row.Scan(&version, &dirty) produced. */
  datatype Scan = ScanError(message: string) | ScanRow(version: int32, dirty: int32)

  /** The results (uint, bool). */
  datatype VersionCheck = VersionCheck(version: uint, ok: bool)

  /** uint(v): the two's-complement bits of v read as unsigned, so a negative
      value wraps around. */
  function ToUint(v: int32): (u: uint)
    ensures (u - v) % TwoTo64 == 0
    ensures v >= 0 ==> u == v
    ensures v < 0 ==> u >= TwoTo64 - TwoTo32 / 2
  {
    if v >= 0 then v else v + TwoTo64
  }

  /** Converting back gives the stored value: uint(version) loses nothing. */
  lemma ToUintInjective(a: int32, b: int32)
    ensures ToUint(a) == ToUint(b) <==> a == b
  {
  }

  function CheckMySQLSchemaVersion(scan: Scan, ver: uint): (r: VersionCheck)
    ensures scan.ScanError? ==> r == VersionCheck(0, false)
    ensures scan.ScanRow? ==> r.version == ToUint(scan.version)
    ensures r.ok <==> scan.ScanRow? && ToUint(scan.version) == ver && scan.dirty == 0
  {
    if scan.ScanError? then
      VersionCheck(0, false)
    else if ToUint(scan.version) == ver && scan.dirty == 0 then
      VersionCheck(ToUint(scan.version), true)
    else
      VersionCheck(ToUint(scan.version), false)
  }

  /** A dirty schema is refused even at the expected version, and an accepted
      row reports exactly the expected version. */
  lemma DirtyIsRefused(version: int32, dirty: int32, ver: uint)
    requires dirty != 0
    ensures !CheckMySQLSchemaVersion(ScanRow(version, dirty), ver).ok
    ensures CheckMySQLSchemaVersion(ScanRow(version, 0), ver).ok ==>
      CheckMySQLSchemaVersion(ScanRow(version, 0), ver).version == ver
  {
  }

  /** A negative stored version can only match an expected version of 2^64 - 2^31 or
      more, never a small one. */
  lemma NegativeVersionNeverMatchesSmall(version: int32, ver: uint)
    requires version < 0 && ver < TwoTo32 / 2
    ensures !CheckMySQLSchemaVersion(ScanRow(version, 0), ver).ok
    ensures CheckMySQLSchemaVersion(ScanRow(version, 0), ver).version == version + TwoTo64
  {
  }
}
