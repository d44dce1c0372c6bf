/** The storage-backend test for a file reference: a Google Drive id rather than a Supabase reference. */
module GoogleDrive {
  import opened JsStrings

  const MAX_DRIVE_ID_LENGTH := 100

  function IsGoogleDriveFile(fileReference: string): bool {
    !Includes(fileReference, "supabase")
    && !StartsWith(fileReference, "data:")
    && |fileReference| < MAX_DRIVE_ID_LENGTH
  }

  /** A reference with "supabase" anywhere in it is never a Drive file. */
  lemma SupabaseIsNotDrive(before: string, after: string)
    ensures !IsGoogleDriveFile(before + "supabase" + after)
  {
    IncludesInfix(before, "supabase", after);
  }

  /** A data URL is never a Drive file. */
  lemma DataUrlIsNotDrive(payload: string)
    ensures !IsGoogleDriveFile("data:" + payload)
  {
    assert ("data:" + payload)[..5] == "data:";
  }

  /** Exactly the references of fewer than 100 characters with neither marker are Drive files;
      the empty reference is one. */
  lemma DriveFileIff(fileReference: string)
    ensures IsGoogleDriveFile(fileReference) <==>
              (forall i :: !OccursAt(fileReference, "supabase", i))
              && !StartsWith(fileReference, "data:")
              && |fileReference| < 100
    ensures IsGoogleDriveFile("")
  {
    IncludesIffOccurs(fileReference, "supabase");
  }
}
