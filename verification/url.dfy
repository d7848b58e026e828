/** The server addresses the app posts to (android/.../helpers/Url.kt). */
module Url {

  /** `apiUrl`, which tests the build type and yields the same address either way. */
  function ApiUrl(buildType: string, baseUrl: string): (url: string)
    ensures |url| == |baseUrl| + 11
    ensures url[..8] == "https://" && url[8..|url| - 3] == baseUrl && url[|url| - 3..] == "/v1"
  {
    if buildType == "staging" then "https://" + baseUrl + "/v1" else "https://" + baseUrl + "/v1"
  }

  /** The API address is the same for every build type: the domain between the scheme and the version. */
  lemma ApiUrlIgnoresBuildType(a: string, b: string, baseUrl: string)
    ensures ApiUrl(a, baseUrl) == ApiUrl(b, baseUrl) == "https://" + baseUrl + "/v1"
  {
  }

  /** `postSmsUrl`. */
  function PostSmsUrl(buildType: string, baseUrl: string): (u: string)
    ensures |u| == |baseUrl| + 15
    ensures u[..8] == "https://" && u[|u| - 7..] == "/v1/sms"
    ensures u[8..|u| - 7] == baseUrl
  {
    ApiUrl(buildType, baseUrl) + "/sms"
  }

  /** The address is the same for every build type. */
  lemma PostSmsUrlIgnoresBuildType(a: string, b: string, baseUrl: string)
    ensures PostSmsUrl(a, baseUrl) == PostSmsUrl(b, baseUrl) == "https://" + baseUrl + "/v1/sms"
  {
  }

  /** Different domains give different addresses. */
  lemma PostSmsUrlInjective(buildType: string, a: string, b: string)
    requires PostSmsUrl(buildType, a) == PostSmsUrl(buildType, b)
    ensures a == b
  {
    var u := PostSmsUrl(buildType, a);
    assert a == u[8..|u| - 7];
  }
}
