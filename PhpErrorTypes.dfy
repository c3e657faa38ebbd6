/** The PHP error-level bit flags (the E_* constants) as 64-bit PHP integers. */
module PhpErrorTypes {

  type PhpInt = bv64

  const E_ERROR: PhpInt := 1
  const E_WARNING: PhpInt := 2
  const E_PARSE: PhpInt := 4
  const E_NOTICE: PhpInt := 8
  const E_CORE_ERROR: PhpInt := 16
  const E_CORE_WARNING: PhpInt := 32
  const E_COMPILE_ERROR: PhpInt := 64
  const E_COMPILE_WARNING: PhpInt := 128
  const E_USER_ERROR: PhpInt := 256
  const E_USER_WARNING: PhpInt := 512
  const E_USER_NOTICE: PhpInt := 1024
  const E_STRICT: PhpInt := 2048
  const E_RECOVERABLE_ERROR: PhpInt := 4096
  const E_DEPRECATED: PhpInt := 8192
  const E_USER_DEPRECATED: PhpInt := 16384
  /** The union of all the flags above (its value in PHP 8.0 to 8.3). */
  const E_ALL: PhpInt := 32767
}
