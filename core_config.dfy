/**
 * `SDKConfig` (`packages/core/src/types/config.ts`), restricted to the fields
 * the client, authentication and URL code read. A custom token getter is the
 * function it computes; a custom token setter is only recorded as configured.
 */
module CoreConfig {
  import opened Wrappers

  datatype SdkConfig = SdkConfig(
    baseURL: Option<string>,
    apiKey: Option<string>,
    appId: Option<string>,
    tokenStorage: Option<string>,
    tokenKey: Option<string>,
    customTokenGetter: Option<() -> Option<string>>,
    hasCustomTokenSetter: bool,
    useProxy: Option<bool>,
    apiProxy: Option<string>)
}
