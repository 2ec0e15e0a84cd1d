/** The error codes the WebVTT routines return (`GF_Err`). */
module ErrorCodes {
  datatype Err =
    | Ok            // GF_OK
    | BadParam      // GF_BAD_PARAM
    | InvalidMedia  // GF_ISOM_INVALID_MEDIA
    | Failed(code: int)  // an error passed on from a collaborator
}
