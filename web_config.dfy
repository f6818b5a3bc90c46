/**
 * The web configuration bean: request diagnostics, static resources and their
 * cache, CORS, the embedded server, and the web security URLs and XSRF
 * settings, with their defaults and chained setters.
 */
module WebConfiguration {
  import opened JavaTypes

  const DEFAULT_BUFFER_SIZE: Int32 := 65535
  const DEFAULT_CACHE_MAX_SIZE: Int32 := 8192
  const DEFAULT_CACHE_CONCURRENCY: Int32 := 32
  const DEFAULT_HOST: string := "0.0.0.0"
  const DEFAULT_PORT: Int32 := 8080
  const DEFAULT_CONTEXT_PATH: string := "/"
  const DEFAULT_CORS_PATH: string := "/*"
  const DEFAULT_URL_PATTERN: string := "/**"
  const DEFAULT_XSRF_COOKIE: string := "XSRF-TOKEN"
  const DEFAULT_XSRF_HEADER: string := "X-XSRF-TOKEN"
  const DEFAULT_XSRF_ALGORITHM: string := "SHA1PRNG"
  const DEFAULT_XSRF_LENGTH: Int32 := 32

  class CORSConfig {
    var enabled: bool
    var path: string
    var properties: map<string, string>

    constructor()
      ensures !enabled && path == DEFAULT_CORS_PATH && properties == map[]
    {
      enabled := false;
      path := DEFAULT_CORS_PATH;
      properties := map[];
    }
  }

  class CacheConfig {
    var maxSize: Int32
    var initialSize: Int32
    var concurrencyLevel: Int32

    /** The initial size is a quarter of the maximum size. */
    constructor()
      ensures maxSize == DEFAULT_CACHE_MAX_SIZE && concurrencyLevel == DEFAULT_CACHE_CONCURRENCY
      ensures initialSize == maxSize / 4 == 2048
    {
      maxSize := DEFAULT_CACHE_MAX_SIZE;
      initialSize := DEFAULT_CACHE_MAX_SIZE / 4;
      concurrencyLevel := DEFAULT_CACHE_CONCURRENCY;
    }
  }

  class StaticResourcesConfig {
    var enabled: bool
    var bufferSize: Int32
    var minification: bool
    var gzip: bool
    var gzipOnTheFly: bool
    const cache: CacheConfig

    constructor()
      ensures enabled && minification && gzip && gzipOnTheFly && bufferSize == DEFAULT_BUFFER_SIZE
      ensures fresh(cache) && cache.maxSize == DEFAULT_CACHE_MAX_SIZE && cache.initialSize == 2048
      ensures cache.concurrencyLevel == DEFAULT_CACHE_CONCURRENCY
    {
      enabled := true;
      bufferSize := DEFAULT_BUFFER_SIZE;
      minification := true;
      gzip := true;
      gzipOnTheFly := true;
      cache := new CacheConfig();
    }
  }

  class ServerConfig {
    var host: string
    var port: Int32
    var contextPath: string
    var https: bool
    var http2: bool

    constructor()
      ensures host == DEFAULT_HOST && port == DEFAULT_PORT && contextPath == DEFAULT_CONTEXT_PATH
      ensures !https && !http2
    {
      host := DEFAULT_HOST;
      port := DEFAULT_PORT;
      contextPath := DEFAULT_CONTEXT_PATH;
      https := false;
      http2 := false;
    }

    method SetHost(host: string) returns (r: ServerConfig)
      modifies this
      ensures r == this && this.host == host
      ensures port == old(port) && contextPath == old(contextPath) && https == old(https) && http2 == old(http2)
    {
      this.host := host;
      return this;
    }

    method SetPort(port: Int32) returns (r: ServerConfig)
      modifies this
      ensures r == this && this.port == port
      ensures host == old(host) && contextPath == old(contextPath) && https == old(https) && http2 == old(http2)
    {
      this.port := port;
      return this;
    }

    method SetContextPath(contextPath: string) returns (r: ServerConfig)
      modifies this
      ensures r == this && this.contextPath == contextPath
      ensures host == old(host) && port == old(port) && https == old(https) && http2 == old(http2)
    {
      this.contextPath := contextPath;
      return this;
    }

    method SetHttps(https: bool) returns (r: ServerConfig)
      modifies this
      ensures r == this && this.https == https
      ensures host == old(host) && port == old(port) && contextPath == old(contextPath) && http2 == old(http2)
    {
      this.https := https;
      return this;
    }

    method SetHttp2(http2: bool) returns (r: ServerConfig)
      modifies this
      ensures r == this && this.http2 == http2
      ensures host == old(host) && port == old(port) && contextPath == old(contextPath) && https == old(https)
    {
      this.http2 := http2;
      return this;
    }
  }

  class UrlConfig {
    var pattern: string
    var filters: seq<string>

    constructor()
      ensures pattern == DEFAULT_URL_PATTERN && filters == []
    {
      pattern := DEFAULT_URL_PATTERN;
      filters := [];
    }

    method SetPattern(pattern: string) returns (r: UrlConfig)
      modifies this
      ensures r == this && this.pattern == pattern && filters == old(filters)
    {
      this.pattern := pattern;
      return this;
    }

    /** Appends the filters, in the order given, after those already there. */
    method AddFilters(filters: seq<string>) returns (r: UrlConfig)
      modifies this
      ensures r == this && this.filters == old(this.filters) + filters && pattern == old(pattern)
    {
      this.filters := this.filters + filters;
      return this;
    }
  }

  class XSRFConfig {
    var cookieName: string
    var headerName: string
    var algorithm: string
    var length: Int32

    constructor()
      ensures cookieName == DEFAULT_XSRF_COOKIE && headerName == DEFAULT_XSRF_HEADER
      ensures algorithm == DEFAULT_XSRF_ALGORITHM && length == DEFAULT_XSRF_LENGTH
    {
      cookieName := DEFAULT_XSRF_COOKIE;
      headerName := DEFAULT_XSRF_HEADER;
      algorithm := DEFAULT_XSRF_ALGORITHM;
      length := DEFAULT_XSRF_LENGTH;
    }

    method SetCookieName(cookieName: string) returns (r: XSRFConfig)
      modifies this
      ensures r == this && this.cookieName == cookieName
      ensures headerName == old(headerName) && algorithm == old(algorithm) && length == old(length)
    {
      this.cookieName := cookieName;
      return this;
    }

    method SetHeaderName(headerName: string) returns (r: XSRFConfig)
      modifies this
      ensures r == this && this.headerName == headerName
      ensures cookieName == old(cookieName) && algorithm == old(algorithm) && length == old(length)
    {
      this.headerName := headerName;
      return this;
    }

    method SetAlgorithm(algorithm: string) returns (r: XSRFConfig)
      modifies this
      ensures r == this && this.algorithm == algorithm
      ensures cookieName == old(cookieName) && headerName == old(headerName) && length == old(length)
    {
      this.algorithm := algorithm;
      return this;
    }

    method SetLength(length: Int32) returns (r: XSRFConfig)
      modifies this
      ensures r == this && this.length == length
      ensures cookieName == old(cookieName) && headerName == old(headerName) && algorithm == old(algorithm)
    {
      this.length := length;
      return this;
    }
  }

  /** The web security settings: protected URLs in order, and XSRF. */
  class WebSecurityConfig {
    var urls: seq<UrlConfig>
    const xsrf: XSRFConfig

    constructor()
      ensures urls == [] && fresh(xsrf)
      ensures xsrf.cookieName == DEFAULT_XSRF_COOKIE && xsrf.headerName == DEFAULT_XSRF_HEADER
      ensures xsrf.algorithm == DEFAULT_XSRF_ALGORITHM && xsrf.length == DEFAULT_XSRF_LENGTH
    {
      urls := [];
      xsrf := new XSRFConfig();
    }

    /** Appends a URL: the URLs keep the order they were added in. */
    method AddUrl(url: UrlConfig) returns (r: WebSecurityConfig)
      modifies this
      ensures r == this && urls == old(urls) + [url]
    {
      urls := urls + [url];
      return this;
    }
  }

  class WebConfig {
    var requestDiagnostic: bool
    const staticResources: StaticResourcesConfig
    const cors: CORSConfig
    const serverConfig: ServerConfig

    constructor()
      ensures !requestDiagnostic
      ensures fresh(staticResources) && fresh(cors) && fresh(serverConfig)
      ensures staticResources.enabled && staticResources.bufferSize == DEFAULT_BUFFER_SIZE
      ensures staticResources.minification && staticResources.gzip && staticResources.gzipOnTheFly
      ensures staticResources.cache.maxSize == DEFAULT_CACHE_MAX_SIZE && staticResources.cache.initialSize == 2048
      ensures staticResources.cache.concurrencyLevel == DEFAULT_CACHE_CONCURRENCY
      ensures !cors.enabled && cors.path == DEFAULT_CORS_PATH && cors.properties == map[]
      ensures serverConfig.host == DEFAULT_HOST && serverConfig.port == DEFAULT_PORT
      ensures serverConfig.contextPath == DEFAULT_CONTEXT_PATH && !serverConfig.https && !serverConfig.http2
    {
      requestDiagnostic := false;
      staticResources := new StaticResourcesConfig();
      cors := new CORSConfig();
      serverConfig := new ServerConfig();
    }
  }
}
