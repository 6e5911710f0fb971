/** `save_secure_file`: write a temporary file and sync it, rename it over the target, sync the
    directory. */
module SecureFile {

  /** What a save did: all of it; failed with the old file in place; or renamed the new file
      into place and then failed to sync the directory. */
  datatype Save = Written | Untouched | Unconfirmed
}
