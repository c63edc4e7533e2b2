/** `DeviceSchemeMapping.Matches`: whether a device's reported platform and
    MAC authorisation satisfy a mapping's verification condition. */
module DeviceSchemes {
  import opened Common

  /** The fields of `DeviceInfo` the match reads. */
  datatype DeviceInfo = DeviceInfo(platform: string, isMacAuthorized: bool)

  datatype VerificationCondition = VerificationCondition(platform: string, requireMacAuthorized: bool)

  function Matches(condition: VerificationCondition, device: DeviceInfo): bool
  {
    if !EqualsIgnoreCase(device.platform, condition.platform) then false
    else if condition.requireMacAuthorized && !device.isMacAuthorized then false
    else true
  }

  /** A device matches exactly when its platform agrees (ignoring case) and
      it is authorised or authorisation is not required. */
  lemma MatchesIff(condition: VerificationCondition, device: DeviceInfo)
    ensures Matches(condition, device) <==>
      EqualsIgnoreCase(device.platform, condition.platform)
      && (!condition.requireMacAuthorized || device.isMacAuthorized)
  {
  }

  /** Without the authorisation requirement the flag is irrelevant. */
  lemma AuthorizationIrrelevant(condition: VerificationCondition, platform: string, a: bool, b: bool)
    requires !condition.requireMacAuthorized
    ensures Matches(condition, DeviceInfo(platform, a)) == Matches(condition, DeviceInfo(platform, b))
  {
  }

  /** The platform comparison ignores ASCII case. */
  lemma PlatformCaseIgnored(condition: VerificationCondition, device: DeviceInfo)
    ensures Matches(condition, device) == Matches(condition, DeviceInfo(ToUpper(device.platform), device.isMacAuthorized))
  {
    LowerOfUpper(device.platform);
  }

  lemma {:induction false} LowerOfUpper(s: string)
    ensures ToLower(ToUpper(s)) == ToLower(s)
  {
    if s != [] {
      LowerOfUpper(s[1..]);
    }
  }
}
