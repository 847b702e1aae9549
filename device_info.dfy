/** The device description sent with a login
    (`src/renderer/src/modules/auth/device-info.ts`): a platform name guessed
    from the browser's user agent and platform strings, and four fields
    trimmed and cut to the lengths the server accepts.  `navigator` and the
    build-time application version are inputs. */
module DeviceInfo {
  import opened Wrappers
  import opened JsString

  const DeviceNamePrefix := "LCchat-"
  const DeviceNameFallback := "LCchat-Unknown"
  const UnknownPlatform := "Unknown"
  const DefaultAppVersion := "1.0.0"

  const DeviceNameLimit := 64
  const PlatformLimit := 32
  const OsVersionLimit := 128
  const AppVersionLimit := 32

  datatype LoginDeviceInfo = LoginDeviceInfo(deviceName: string, platform: string, osVersion: string, appVersion: string)

  /** The three tests for a Mac: any text containing `mac os` or
      `macintosh` contains `mac`, so the three together are the last one. */
  lemma MacTestsSubsumed(source: string)
    ensures (Contains(source, "mac os") || Contains(source, "macintosh") || Contains(source, "mac"))
            <==> Contains(source, "mac")
  {
    if Contains(source, "mac os") {
      ContainsPiece(source, "mac os", 0, 3);
      assert "mac os"[0..3] == "mac";
    }
    if Contains(source, "macintosh") {
      ContainsPiece(source, "macintosh", 0, 3);
      assert "macintosh"[0..3] == "mac";
    }
  }

  /** `detectPlatform`: the first of Windows, macOS and Linux whose name
      occurs in the lower-cased `userAgent + ' ' + platform`, otherwise the
      raw platform, or `Unknown` when that is empty. */
  function DetectPlatform(userAgent: string, platform: string): (r: string)
    ensures r != ""
    ensures var source := Lower(userAgent + " " + platform);
            && (Contains(source, "windows") ==> r == "Windows")
            && (!Contains(source, "windows") && Contains(source, "mac") ==> r == "macOS")
            && (!Contains(source, "windows") && !Contains(source, "mac") && Contains(source, "linux") ==> r == "Linux")
            && (!Contains(source, "windows") && !Contains(source, "mac") && !Contains(source, "linux") ==>
                  r == if platform != "" then platform else UnknownPlatform)
  {
    var source := Lower(userAgent + " " + platform);
    MacTestsSubsumed(source);
    if Contains(source, "windows") then "Windows"
    else if Contains(source, "mac os") || Contains(source, "macintosh") || Contains(source, "mac") then "macOS"
    else if Contains(source, "linux") then "Linux"
    else if platform != "" then platform
    else UnknownPlatform
  }

  /** `safeTrim`: the fallback for a blank value, otherwise the trimmed
      value cut to `maxLength` characters. */
  function SafeTrim(value: string, fallback: string, maxLength: nat): (r: string)
    ensures AllSpace(value) ==> r == fallback
    ensures !AllSpace(value) ==>
              && |r| <= maxLength && |r| <= |Trim(value)|
              && r == Trim(value)[..|r|]
              && (|r| == maxLength || r == Trim(value))
  {
    TrimEmptyIffBlank(value);
    var normalized := Trim(value);
    if normalized == "" then fallback else Prefix(normalized, maxLength)
  }

  /** `buildLoginDeviceInfo`; `navigator.userAgent`, `navigator.platform`
      (each empty when missing) and `VITE_APP_VERSION` are inputs.  Every
      field fits the length the server accepts and none is empty; a trimmed
      id of up to 57 characters gives the device name `LCchat-<id>`. */
  function BuildLoginDeviceInfo(deviceId: string, userAgent: string, rawPlatform: string, appVersion: Option<string>)
    : (r: LoginDeviceInfo)
    ensures 0 < |r.deviceName| <= DeviceNameLimit
    ensures 0 < |r.platform| <= PlatformLimit
    ensures 0 < |r.osVersion| <= OsVersionLimit
    ensures 0 < |r.appVersion| <= AppVersionLimit
    ensures Trim(deviceId) == deviceId && |deviceId| <= DeviceNameLimit - |DeviceNamePrefix| ==>
              r.deviceName == DeviceNamePrefix + deviceId
  {
    var platform := DetectPlatform(userAgent, rawPlatform);
    SafeTrimFits(DeviceNamePrefix + deviceId, DeviceNameFallback, DeviceNameLimit);
    SafeTrimFits(platform, UnknownPlatform, PlatformLimit);
    SafeTrimFits(userAgent, UnknownPlatform, OsVersionLimit);
    SafeTrimFits(appVersion.GetOr(DefaultAppVersion), DefaultAppVersion, AppVersionLimit);
    DeviceName(deviceId);
    LoginDeviceInfo(
      SafeTrim(DeviceNamePrefix + deviceId, DeviceNameFallback, DeviceNameLimit),
      SafeTrim(platform, UnknownPlatform, PlatformLimit),
      SafeTrim(userAgent, UnknownPlatform, OsVersionLimit),
      SafeTrim(appVersion.GetOr(DefaultAppVersion), DefaultAppVersion, AppVersionLimit))
  }

  /** The device name is never blank, so its fallback is never used. */
  lemma DeviceNameNeverBlank(deviceId: string)
    ensures !AllSpace(DeviceNamePrefix + deviceId)
  {
    assert (DeviceNamePrefix + deviceId)[0] == 'L';
  }

  /** `LCchat-` followed by a trimmed id is already trimmed. */
  lemma PrefixedIdTrimmed(deviceId: string)
    requires Trim(deviceId) == deviceId
    ensures Trim(DeviceNamePrefix + deviceId) == DeviceNamePrefix + deviceId
  {
    var s := DeviceNamePrefix + deviceId;
    TrimShape(deviceId);
    assert s[0] == 'L';
    assert s[|s| - 1] == if deviceId == [] then '-' else deviceId[|deviceId| - 1];
    TrimmedEnds(s);
  }

  /** A field cut to `maxLength` with a fallback that fits is never empty
      and fits. */
  lemma SafeTrimFits(value: string, fallback: string, maxLength: nat)
    requires 0 < |fallback| <= maxLength
    ensures 0 < |SafeTrim(value, fallback, maxLength)| <= maxLength
  {
    TrimEmptyIffBlank(value);
  }

  /** A short trimmed id gives the device name `LCchat-<id>`. */
  lemma DeviceName(deviceId: string)
    ensures Trim(deviceId) == deviceId && |deviceId| <= DeviceNameLimit - |DeviceNamePrefix| ==>
              SafeTrim(DeviceNamePrefix + deviceId, DeviceNameFallback, DeviceNameLimit) == DeviceNamePrefix + deviceId
  {
    DeviceNameNeverBlank(deviceId);
    if Trim(deviceId) == deviceId {
      PrefixedIdTrimmed(deviceId);
    }
  }

  /** The login test's device: `device-test` is named `LCchat-device-test`. */
  lemma DeviceTestName(userAgent: string, rawPlatform: string, appVersion: Option<string>)
    ensures BuildLoginDeviceInfo("device-test", userAgent, rawPlatform, appVersion).deviceName == DeviceNamePrefix + "device-test"
  {
    var id := "device-test";
    TrimmedEnds(id);
    DeviceName(id);
    var name := SafeTrim(DeviceNamePrefix + id, DeviceNameFallback, DeviceNameLimit);
    assert BuildLoginDeviceInfo(id, userAgent, rawPlatform, appVersion).deviceName == name;
    assert name == DeviceNamePrefix + id;
  }
}
