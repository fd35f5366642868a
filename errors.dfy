/**
 * The error domains and codes the library reports (dm-utils.h, dm-domain.h,
 * dm-database-manager.h), plus a tag for errors that are passed through
 * unchanged from the libraries the core calls into.
 */
module Errors {

  /** DM_CONTENT_ERROR: malformed object metadata. */
  datatype ContentErrorCode = BadFormat

  /** DM_DOMAIN_ERROR codes, in declaration order. */
  datatype DomainErrorCode =
    | AppIdNotSet
    | IdNotFound
    | BadManifest
    | BadResults
    | UnsupportedVersion
    | PathNotFound
    | IdNotValid
    | Empty

  /** DM_DATABASE_MANAGER_ERROR codes. */
  datatype DatabaseErrorCode = NotFound | InvalidPath | InvalidParams

  /** A library whose errors the core forwards without inspecting them. */
  datatype Library = JsonGlib | EosShardLib | LibZim | XapianLib | Gio

  datatype Error =
    | ContentError(content: ContentErrorCode)
    | DomainError(domain: DomainErrorCode)
    | DatabaseError(database: DatabaseErrorCode)
      /** G_IO_ERROR_NOT_FOUND, raised for a missing manifest. */
    | IoNotFound
      /** The eos shard's own domain ("dm-shard-eos-shard-error-quark"), code 1. */
    | EosShardInitFailed
      /** An error set by a library call and propagated as is. */
    | External(library: Library)
}
