/**
 * The XAML value converters: ImageSourceConverter, which turns an image
 * reference into an ImageSource and memoises the result for an hour, and
 * InverseBoolConverter.
 */
module Converters {
  import opened Wrappers
  import opened Clock
  import opened Text
  import opened Web
  import opened Models
  import ProfilesService

  /** A binding value as a converter receives it: null, a string, a bool or any other object. */
  datatype BoxedValue =
    | Null
    | Str(s: string)
    | Bool(b: bool)
    | OtherObject(tag: int)

  /** An entry of the converter's memo: the ImageSource made for a URL and when it stops being served. */
  datatype CachedImage = CachedImage(image: ImageSource, expirationTime: DateTime)

  /** How long a new memo entry is served. */
  const CacheDuration: TimeSpan := TicksPerHour

  /** The part of a URL that marks the API's authenticated image endpoint. */
  const ApiImagesPath: string := "/api/Images/"

  /** CachedImage.IsExpired: strictly after the expiration time. */
  predicate IsExpired(entry: CachedImage, now: DateTime) {
    now > entry.expirationTime
  }

  /** The input is a string that is not blank; anything else shows the paw icon. */
  predicate IsImageReference(value: BoxedValue) {
    value.Str? && !IsBlank(value.s)
  }

  /** The memo key of a reference: an absolute URL as it is, a bare name as its URL on the image endpoint. */
  function ResolveUrl(imageUrl: string): (url: string)
    requires imageUrl != ""
    ensures IsWellFormedAbsoluteUri(imageUrl) ==> url == imageUrl
    ensures !IsWellFormedAbsoluteUri(imageUrl) ==> url == BaseUrl + "/Images/" + imageUrl
  {
    if IsWellFormedAbsoluteUri(imageUrl) then imageUrl
    else ProfilesService.GetImageUrlFromFileName(Some(imageUrl))
  }

  /** The ImageSource made for a URL: an authenticated stream on the image endpoint, a plain URI image elsewhere. */
  function FreshImage(url: string): (image: ImageSource)
    ensures image.StreamImage? <==> Contains(url, ApiImagesPath)
    ensures image == StreamImage(url) || image == UriImage(url)
  {
    if Contains(url, ApiImagesPath) then StreamImage(url) else UriImage(url)
  }

  /** What one call of Convert returns, and the memo it leaves. */
  datatype Conversion = Conversion(image: ImageSource, cache: map<string, CachedImage>)

  /**
   * ImageSourceConverter.Convert at time now: the placeholder for a
   * non-reference; the memoised image while its entry is fresh; otherwise
   * a new image memoised for an hour, after an expired entry is dropped.
   * When the expiration time falls outside the DateTime range the exception
   * is caught and the placeholder returned, with no new entry.
   */
  function Converted(cache: map<string, CachedImage>, value: BoxedValue, now: DateTime): (r: Conversion)
    ensures !IsImageReference(value) ==> r == Conversion(Placeholder, cache)
    ensures r.image == Placeholder || IsImageReference(value)
  {
    if !IsImageReference(value) then Conversion(Placeholder, cache)
    else
      var url := ResolveUrl(value.s);
      if url in cache && !IsExpired(cache[url], now) then Conversion(cache[url].image, cache)
      else
        var rest := cache - {url};
        match Add(now, CacheDuration)
        case None => Conversion(Placeholder, rest)
        case Some(expiration) => Conversion(FreshImage(url), rest[url := CachedImage(FreshImage(url), expiration)])
  }

  /** The static memo of ImageSourceConverter, shared by every use of the converter. */
  class ImageSourceConverter {
    var imageCache: map<string, CachedImage>

    /** The memo is empty when the app starts. */
    constructor()
      ensures imageCache == map[]
    {
      imageCache := map[];
    }

    /** Convert: the image for a binding value at time now, updating the memo as it goes. */
    method Convert(value: BoxedValue, now: DateTime) returns (image: ImageSource)
      modifies this`imageCache
      ensures Conversion(image, imageCache) == Converted(old(imageCache), value, now)
    {
      if !value.Str? || IsBlank(value.s) {
        return Placeholder;
      }
      var imageUrl := value.s;
      if !IsWellFormedAbsoluteUri(imageUrl) {
        imageUrl := ProfilesService.GetImageUrlFromFileName(Some(imageUrl));
      }
      if imageUrl in imageCache {
        var cached := imageCache[imageUrl];
        if !IsExpired(cached, now) {
          return cached.image;
        }
        imageCache := imageCache - {imageUrl};
      }
      var made: ImageSource;
      if Contains(imageUrl, ApiImagesPath) {
        made := StreamImage(imageUrl);
      } else {
        made := UriImage(imageUrl);
      }
      var expiration := Add(now, CacheDuration);
      if expiration.None? {
        return Placeholder;
      }
      imageCache := imageCache[imageUrl := CachedImage(made, expiration.value)];
      return made;
    }
  }

  /** A fresh memo entry is served as it is, and the memo is left alone. */
  lemma FreshEntryIsServed(cache: map<string, CachedImage>, value: BoxedValue, now: DateTime)
    requires IsImageReference(value)
    requires ResolveUrl(value.s) in cache && !IsExpired(cache[ResolveUrl(value.s)], now)
    ensures Converted(cache, value, now) == Conversion(cache[ResolveUrl(value.s)].image, cache)
  {
  }

  /**
   * Without a fresh entry, Convert makes a new image, memoises it for
   * exactly one hour from now in place of any expired entry, and leaves
   * every other entry as it was.
   */
  lemma MissMemoisesForAnHour(cache: map<string, CachedImage>, value: BoxedValue, now: DateTime)
    requires IsImageReference(value)
    requires ResolveUrl(value.s) !in cache || IsExpired(cache[ResolveUrl(value.s)], now)
    requires now + CacheDuration <= MaxTicks
    ensures var url := ResolveUrl(value.s);
            var r := Converted(cache, value, now);
            r.image == FreshImage(url) &&
            url in r.cache && r.cache[url].image == FreshImage(url) &&
            r.cache[url].expirationTime == now + CacheDuration &&
            forall u :: u != url ==> (u in r.cache <==> u in cache) && (u in cache ==> r.cache[u] == cache[u])
  {
  }

  /** Every entry other than the one for the converted reference is left as it was. */
  lemma OtherEntriesUntouched(cache: map<string, CachedImage>, value: BoxedValue, now: DateTime, u: string)
    requires !IsImageReference(value) || u != ResolveUrl(value.s)
    ensures u in Converted(cache, value, now).cache <==> u in cache
    ensures u in cache ==> Converted(cache, value, now).cache[u] == cache[u]
  {
  }

  /**
   * Converting the same value again before the new entry expires returns
   * the same image and changes nothing, also when the first call failed.
   */
  lemma {:induction false} RepeatWithinTheHour(cache: map<string, CachedImage>, value: BoxedValue, now: DateTime, later: DateTime)
    requires now <= later
    requires IsImageReference(value) ==>
      ResolveUrl(value.s) !in cache || IsExpired(cache[ResolveUrl(value.s)], now) || later == now
    requires later <= now + CacheDuration
    ensures var r := Converted(cache, value, now);
            Converted(r.cache, value, later) == Conversion(r.image, r.cache)
  {
    if IsImageReference(value) {
      var url := ResolveUrl(value.s);
      var r := Converted(cache, value, now);
      if url in cache && !IsExpired(cache[url], now) {
        assert later == now;
      } else if now + CacheDuration <= MaxTicks {
        assert url in r.cache && r.cache[url].expirationTime == now + CacheDuration;
      } else {
        assert url !in r.cache;
        assert r.cache - {url} == r.cache;
      }
    }
  }

  /** A bare file name is memoised as an authenticated stream from the API's image endpoint. */
  lemma BareNameStreamsFromApi(cache: map<string, CachedImage>, name: string, now: DateTime)
    requires !IsBlank(name) && !IsWellFormedAbsoluteUri(name)
    requires ResolveUrl(name) !in cache
    requires now + CacheDuration <= MaxTicks
    ensures Converted(cache, Str(name), now).image == StreamImage(BaseUrl + "/Images/" + name)
  {
    ProfilesService.ImageUrlIsApiImage(name);
  }

  /** An entry is still served at its expiration time and expired one tick later. */
  lemma ExpiryIsStrict(entry: CachedImage)
    requires entry.expirationTime < MaxTicks
    ensures !IsExpired(entry, entry.expirationTime)
    ensures IsExpired(entry, entry.expirationTime + 1)
  {
  }

  /**
   * InverseBoolConverter.Convert, and equally ConvertBack, whose code is
   * the same: a bool negated, anything else passed through.
   */
  function InverseBool(value: BoxedValue): (r: BoxedValue)
    ensures r.Bool? <==> value.Bool?
    ensures value.Bool? ==> r.b == !value.b
    ensures !value.Bool? ==> r == value
  {
    if value.Bool? then Bool(!value.b) else value
  }

  /** ConvertBack undoes Convert, and Convert undoes ConvertBack. */
  lemma InverseBoolRoundTrip(value: BoxedValue)
    ensures InverseBool(InverseBool(value)) == value
  {
  }
}
