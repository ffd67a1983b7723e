/** Optional values and the failures the pipeline can raise. */
module Results {

  datatype Option<T> = None | Some(value: T)

  /** Why a resolver call aborts. In the Python program each of these is an
      exception that propagates to the caller; no partial result escapes. */
  datatype Error =
    | MissingStateMenu   // the state dropdown `ul` is absent from the index page
    | MissingSiteList    // the `list_parks` list is absent from a state page
    | MissingAnchor      // a site heading `h3` holds no anchor
    | MissingHref        // an anchor has no `href` attribute
    | MissingHeader      // the `Hero-titleContainer` header is absent
    | MissingFooter      // the `ParkFooter-contact` footer is absent
    | MissingField(key: string)  // a cached site record lacks one of its five keys
    | WrongKind          // a cached value is not of the kind the resolver stores

  datatype Result<T> = Ok(value: T) | Err(error: Error)
}
