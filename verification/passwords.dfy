/** `generatePassword` of lib/utils.ts, with the 16 bytes of `randomBytes(16)` as input. */
module Passwords {

  type byte = x: int | 0 <= x < 256

  const PasswordLength := 16

  const Charset := "abcdefghijklmnopqrstuvwxyzABCDEFGHIJKLMNOPQRSTUVWXYZ0123456789!@#$%^&*()_+-=[]{}|;:,.<>?"

  lemma CharsetHas88Characters()
    ensures |Charset| == 88
  {
  }

  /** The password drawn from `bytes`, as a value. */
  function PasswordFrom(bytes: seq<byte>): (p: string)
    requires |bytes| == PasswordLength
    ensures |p| == PasswordLength
    ensures forall i :: 0 <= i < |p| ==> p[i] in Charset
  {
    seq(PasswordLength, i requires 0 <= i < PasswordLength => Charset[bytes[i] % |Charset|])
  }

  /** The loop of `generatePassword` in lib/utils.ts: one character per byte, appended in byte order. */
  method GeneratePassword(bytes: seq<byte>) returns (password: string)
    requires |bytes| == PasswordLength
    ensures |password| == PasswordLength
    ensures forall i :: 0 <= i < PasswordLength ==> password[i] == Charset[bytes[i] % 88]
    ensures password == PasswordFrom(bytes)
  {
    password := "";
    var i := 0;
    while i < PasswordLength
      invariant 0 <= i <= PasswordLength
      invariant |password| == i
      invariant forall k :: 0 <= k < i ==> password[k] == Charset[bytes[k] % |Charset|]
    {
      password := password + [Charset[bytes[i] % |Charset|]];
      i := i + 1;
    }
  }

  /** The password depends on each byte only through its residue modulo 88. */
  lemma PasswordDependsOnResidues(a: seq<byte>, b: seq<byte>)
    requires |a| == PasswordLength && |b| == PasswordLength
    requires forall i :: 0 <= i < PasswordLength ==> a[i] % 88 == b[i] % 88
    ensures PasswordFrom(a) == PasswordFrom(b)
  {
  }

  /** The documented "at least 12 characters" holds, and so does the `min(8)` of the
      user-creation schema. */
  lemma PasswordMeetsLengthRules(bytes: seq<byte>)
    requires |bytes| == PasswordLength
    ensures |PasswordFrom(bytes)| >= 12
    ensures |PasswordFrom(bytes)| >= 8
  {
  }
}
