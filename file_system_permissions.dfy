/** Tr1ppy.System/Tr1ppy.System.Abstractions/Models/FileSystemPermissions.cs:
    Unix-style permission flags, their `chmod` digits and the Windows
    `FileSystemRights` they map to. A flags value is the 32-bit integer
    behind the enum. */
module FileSystemPermissionFlags {

  const None: bv32 := 0
  const UserRead: bv32 := 0x100
  const UserWrite: bv32 := 0x80
  const UserExecute: bv32 := 0x40
  const GroupRead: bv32 := 0x20
  const GroupWrite: bv32 := 0x10
  const GroupExecute: bv32 := 0x8
  const OthersRead: bv32 := 0x4
  const OthersWrite: bv32 := 0x2
  const OthersExecute: bv32 := 0x1
  const UserAll: bv32 := UserRead | UserWrite | UserExecute
  const GroupAll: bv32 := GroupRead | GroupWrite | GroupExecute
  const OthersAll: bv32 := OthersRead | OthersWrite | OthersExecute
  const All: bv32 := UserAll | GroupAll | OthersAll

  /** The `System.Security.AccessControl.FileSystemRights` values used. */
  const ReadData: bv32 := 0x1
  const WriteData: bv32 := 0x2
  const AppendData: bv32 := 0x4
  const WriteExtendedAttributes: bv32 := 0x10
  const ExecuteFile: bv32 := 0x20
  const WriteAttributes: bv32 := 0x100
  const ReadAndExecute: bv32 := 0x200A9
  const Synchronize: bv32 := 0x100000
  const FullControl: bv32 := 0x1F01FF

  /** `Enum.HasFlag`: every bit of `flag` is set. */
  predicate HasFlag(p: bv32, flag: bv32) {
    p & flag == flag
  }

  /** One `chmod` digit: 4 for read, 2 for write, 1 for execute. */
  function Digit(read: bool, write: bool, execute: bool): (d: int)
    ensures 0 <= d <= 7
  {
    (if read then 4 else 0) + (if write then 2 else 0) + (if execute then 1 else 0)
  }

  function DigitChar(d: int): char
    requires 0 <= d <= 7
  {
    ('0' as int + d) as char
  }

  /** `ToChmodString`: the user, group and others digits. */
  function ToChmodString(p: bv32): (s: string)
    ensures |s| == 3 && forall i :: 0 <= i < 3 ==> '0' <= s[i] <= '7'
  {
    var user := Digit(HasFlag(p, UserRead), HasFlag(p, UserWrite), HasFlag(p, UserExecute));
    var group := Digit(HasFlag(p, GroupRead), HasFlag(p, GroupWrite), HasFlag(p, GroupExecute));
    var others := Digit(HasFlag(p, OthersRead), HasFlag(p, OthersWrite), HasFlag(p, OthersExecute));
    [DigitChar(user), DigitChar(group), DigitChar(others)]
  }

  /** The octal digit held in the low three bits of `b`. */
  function OctalDigit(b: bv32): char {
    var low := b & 7;
    if low == 0 then '0' else if low == 1 then '1' else if low == 2 then '2' else if low == 3 then '3'
    else if low == 4 then '4' else if low == 5 then '5' else if low == 6 then '6' else '7'
  }

  /** The three-digit octal rendering of the low nine bits. */
  function Octal3(p: bv32): string {
    [OctalDigit(p >> 6), OctalDigit(p >> 3), OctalDigit(p)]
  }

  lemma DigitOfBits(b: bv32, r: bv32, w: bv32, x: bv32)
    requires r == 4 && w == 2 && x == 1
    ensures DigitChar(Digit(b & r == r, b & w == w, b & x == x)) == OctalDigit(b)
  {
  }

  /** The string is the zero-padded octal of the permission bits, since the
      flags are 0o400 down to 0o001. */
  lemma ChmodIsOctal(p: bv32)
    ensures ToChmodString(p) == Octal3(p)
  {
    DigitOfBits(p >> 6, 4, 2, 1);
    assert HasFlag(p, UserRead) == ((p >> 6) & 4 == 4);
    assert HasFlag(p, UserWrite) == ((p >> 6) & 2 == 2);
    assert HasFlag(p, UserExecute) == ((p >> 6) & 1 == 1);
    DigitOfBits(p >> 3, 4, 2, 1);
    assert HasFlag(p, GroupRead) == ((p >> 3) & 4 == 4);
    assert HasFlag(p, GroupWrite) == ((p >> 3) & 2 == 2);
    assert HasFlag(p, GroupExecute) == ((p >> 3) & 1 == 1);
    DigitOfBits(p, 4, 2, 1);
  }

  /** Bits outside the nine permission bits never affect the string. */
  lemma ChmodIgnoresOtherBits(p: bv32, q: bv32)
    requires p & All == q & All
    ensures ToChmodString(p) == ToChmodString(q)
  {
    ChmodIsOctal(p);
    ChmodIsOctal(q);
    assert (p >> 6) & 7 == ((p & All) >> 6) & 7 && (q >> 6) & 7 == ((q & All) >> 6) & 7;
    assert (p >> 3) & 7 == ((p & All) >> 3) & 7 && (q >> 3) & 7 == ((q & All) >> 3) & 7;
    assert p & 7 == (p & All) & 7 && q & 7 == (q & All) & 7;
  }

  lemma ChmodOfNoneAndAll()
    ensures ToChmodString(None) == "000"
    ensures ToChmodString(All) == "777"
  {
  }

  predicate AnyRead(p: bv32) {
    HasFlag(p, UserRead) || HasFlag(p, GroupRead) || HasFlag(p, OthersRead)
  }

  predicate AnyWrite(p: bv32) {
    HasFlag(p, UserWrite) || HasFlag(p, GroupWrite) || HasFlag(p, OthersWrite)
  }

  predicate AnyExecute(p: bv32) {
    HasFlag(p, UserExecute) || HasFlag(p, GroupExecute) || HasFlag(p, OthersExecute)
  }

  /** `ToWindowsRights`. */
  function ToWindowsRights(p: bv32): (rights: bv32)
    ensures rights & Synchronize == Synchronize
    ensures rights & FullControl == rights
  {
    var rights := Synchronize;
    var rights :=
      if AnyRead(p) && AnyExecute(p) then rights | ReadAndExecute
      else if AnyRead(p) then rights | ReadData
      else if AnyExecute(p) then rights | ExecuteFile
      else rights;
    var rights :=
      if AnyWrite(p) then rights | WriteData | AppendData | WriteAttributes | WriteExtendedAttributes
      else rights;
    if HasFlag(p, UserAll) && HasFlag(p, GroupAll) && HasFlag(p, OthersAll) then FullControl
    else rights
  }

  /** Full control is granted exactly when all nine permission bits are set. */
  lemma FullControlIffAll(p: bv32)
    ensures ToWindowsRights(p) == FullControl <==> HasFlag(p, All)
  {
    assert HasFlag(p, All) <==> HasFlag(p, UserAll) && HasFlag(p, GroupAll) && HasFlag(p, OthersAll) by {
      assert All == 0x1FF && UserAll == 0x1C0 && GroupAll == 0x38 && OthersAll == 0x7;
    }
    if !HasFlag(p, All) {
      PartialRightsCannotDelete(p);
    }
  }

  /** Short of full control, the delete-children right (0x40) is never granted. */
  lemma PartialRightsCannotDelete(p: bv32)
    requires !(HasFlag(p, UserAll) && HasFlag(p, GroupAll) && HasFlag(p, OthersAll))
    ensures ToWindowsRights(p) & 0x40 == 0
  {
    var base: bv32 := Synchronize | ReadAndExecute | WriteData | AppendData | WriteAttributes | WriteExtendedAttributes;
    assert base & 0x40 == 0;
    assert ToWindowsRights(p) & base == ToWindowsRights(p);
  }

  /** Each right is present exactly when a matching permission bit is; the
      whole of `ReadAndExecute` needs both a read and an execute bit. */
  lemma RightsFollowBits(p: bv32)
    ensures ToWindowsRights(p) & ReadData != 0 <==> AnyRead(p)
    ensures ToWindowsRights(p) & ExecuteFile != 0 <==> AnyExecute(p)
    ensures ToWindowsRights(p) & WriteData != 0 <==> AnyWrite(p)
    ensures ToWindowsRights(p) & AppendData != 0 <==> AnyWrite(p)
    ensures ToWindowsRights(p) & WriteAttributes != 0 <==> AnyWrite(p)
    ensures ToWindowsRights(p) & WriteExtendedAttributes != 0 <==> AnyWrite(p)
    ensures ToWindowsRights(p) & ReadAndExecute == ReadAndExecute <==> AnyRead(p) && AnyExecute(p)
  {
  }

  /** Without any permission bit the only right is Synchronize. */
  lemma NoBitsOnlySynchronize(p: bv32)
    requires p & All == 0
    ensures ToWindowsRights(p) == Synchronize
  {
    assert !AnyRead(p) && !AnyWrite(p) && !AnyExecute(p);
  }
}
