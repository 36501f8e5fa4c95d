/** The cryptographic and encoding primitives the library calls but does not implement.
    They are taken as given functions, so every property proved here holds for any
    implementation of them. */
module External {
  import opened Wrappers
  import opened PhpValue

  datatype Primitives = Primitives(
    /** `openssl_pkey_get_private($pem)` succeeds. */
    privateKeyParses: string -> bool,
    /** `base64_encode` of `openssl_sign($message, …, $pem, OPENSSL_ALGO_SHA1)`:
        RSASSA-PKCS1-v1_5 with SHA-1 (section 8.2 of RFC 8017), base64 per section 4 of RFC 4648. */
    rsaSha1SignBase64: (string, string) -> string,
    /** `json_encode($v, JSON_UNESCAPED_SLASHES | JSON_UNESCAPED_UNICODE)`; `None` is `false`. */
    jsonEncodeUnescaped: Value -> Option<string>,
    /** `json_encode($v)` with default flags; `None` is `false`. */
    jsonEncode: Value -> Option<string>,
    /** `hash_hmac('sha256', $message, $key)` as lower-case hex (RFC 2104). */
    hmacSha256Hex: (string, string) -> string
  )
}
