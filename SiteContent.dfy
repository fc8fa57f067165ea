/** The static content of constants.ts that the components read: the listing catalog, the hero
    slides and the city-to-area table behind the search suggestions. */
module SiteContent {
  import opened Wrappers
  import opened Types

  /** `SITE_CONTENT.properties`, one constant per listing. */
  const Properties: seq<Property> := [Listing1, Listing2, Listing3, Listing4, Listing5, Listing6, Listing7, Listing8]

  const Listing1: Property := Property(
    id := 1, title := "Luxury 3 BHK Apartment in Koramangala", kind := ForSale, price := "\U{20B9} 2.5 Cr",
    location := "Bangalore, Karnataka", beds := 3, baths := 3, sqft := 1800, status := ReadyToMove,
    isVerified := true, isFeatured := Some(true),
    agent := Agent("Priya Sharma", "https://i.pravatar.cc/150?img=1"),
    imageUrls := ["https://images.unsplash.com/photo-1580587771525-78b9dba3b914?w=500&q=80", "https://images.unsplash.com/photo-1600585154340-be6161a56a0c?w=500&q=80"],
    coordinates := LatLng(12.9352, 77.6245),
    amenities := ["Swimming Pool", "Gym", "Clubhouse", "24/7 Security"],
    description := "A stunning 3 BHK apartment in the heart of Koramangala, offering modern amenities and a vibrant community.",
    isReraApproved := Some(true), loanAvailability := Some("Up to 80%"), isAuthorityVerified := Some(true))

  const Listing2: Property := Property(
    id := 2, title := "Spacious 2 BHK for Rent in Bandra", kind := ForRent, price := "\U{20B9} 85,000/month",
    location := "Mumbai, Maharashtra", beds := 2, baths := 2, sqft := 1200, status := ReadyToMove,
    isVerified := true, isFeatured := None,
    agent := Agent("Rajesh Kumar", "https://i.pravatar.cc/150?img=2"),
    imageUrls := ["https://images.unsplash.com/photo-1560448204-e02f11c3d0e2?w=500&q=80", "https://images.unsplash.com/photo-1512917774080-9991f1c4c750?w=500&q=80"],
    coordinates := LatLng(19.0544, 72.8403),
    amenities := ["Sea View", "Modular Kitchen", "Reserved Parking"],
    description := "Enjoy the vibrant life of Bandra in this spacious 2 BHK apartment, perfect for families and professionals.",
    isReraApproved := Some(false), loanAvailability := Some("Up to 75%"), isAuthorityVerified := Some(true))

  const Listing3: Property := Property(
    id := 3, title := "Modern Villa in Jubilee Hills", kind := ForSale, price := "\U{20B9} 7 Cr",
    location := "Hyderabad, Telangana", beds := 5, baths := 5, sqft := 4500, status := ReadyToMove,
    isVerified := false, isFeatured := None,
    agent := Agent("Anjali Rao", "https://i.pravatar.cc/150?img=3"),
    imageUrls := ["https://images.unsplash.com/photo-1600596542815-ffad4c1539a9?w=500&q=80", "https://images.unsplash.com/photo-1570129477492-45c003edd2e7?w=500&q=80"],
    coordinates := LatLng(17.4336, 78.4024),
    amenities := ["Private Garden", "Home Theatre", "Swimming Pool"],
    description := "An exquisite villa with luxurious amenities located in the upscale neighborhood of Jubilee Hills.",
    isReraApproved := Some(true), loanAvailability := Some("Up to 85%"), isAuthorityVerified := Some(true))

  const Listing4: Property := Property(
    id := 4, title := "1 BHK Studio in Hauz Khas", kind := ForRent, price := "\U{20B9} 40,000/month",
    location := "Delhi, NCR", beds := 1, baths := 1, sqft := 800, status := ReadyToMove,
    isVerified := true, isFeatured := None,
    agent := Agent("Vikram Singh", "https://i.pravatar.cc/150?img=4"),
    imageUrls := ["https://images.unsplash.com/photo-1605276374104-5de67d4619da?w=500&q=80", "https://images.unsplash.com/photo-1494203484021-3c454daf695d?w=500&q=80"],
    coordinates := LatLng(28.5492, 77.2056),
    amenities := ["Park Facing", "Fully Furnished", "24/7 Power Backup"],
    description := "A chic and modern studio apartment perfect for a single professional, overlooking the beautiful Hauz Khas park.",
    isReraApproved := Some(false), loanAvailability := Some("Not Applicable"), isAuthorityVerified := Some(true))

  const Listing5: Property := Property(
    id := 5, title := "Sea-Facing Flat in Marine Drive", kind := ForSale, price := "\U{20B9} 12 Cr",
    location := "Mumbai, Maharashtra", beds := 4, baths := 4, sqft := 2500, status := ReadyToMove,
    isVerified := true, isFeatured := Some(true),
    agent := Agent("Rajesh Kumar", "https://i.pravatar.cc/150?img=2"),
    imageUrls := ["https://images.unsplash.com/photo-1598228723793-52759bba239c?w=500&q=80", "https://images.unsplash.com/photo-1522708323590-d24dbb6b0267?w=500&q=80"],
    coordinates := LatLng(18.9437, 72.8246),
    amenities := ["Unobstructed Sea View", "Valet Parking", "High-speed Elevators"],
    description := "Own a piece of the iconic Queen's Necklace with this breathtaking apartment on Marine Drive.",
    isReraApproved := Some(true), loanAvailability := Some("Up to 90%"), isAuthorityVerified := Some(true))

  const Listing6: Property := Property(
    id := 6, title := "Under Construction 2BHK in Gachibowli", kind := ForSale, price := "\U{20B9} 95 Lakhs",
    location := "Hyderabad, Telangana", beds := 2, baths := 2, sqft := 1350, status := UnderConstruction,
    isVerified := false, isFeatured := None,
    agent := Agent("Anjali Rao", "https://i.pravatar.cc/150?img=3"),
    imageUrls := ["https://images.unsplash.com/photo-1572120360610-d971b9d7767c?w=500&q=80", "https://images.unsplash.com/photo-1516156008657-323b2da42a58?w=500&q=80"],
    coordinates := LatLng(17.4401, 78.3489),
    amenities := ["Infinity Pool", "Smart Home Features", "Rooftop Garden"],
    description := "Invest in the future with this modern 2BHK in Hyderabad's IT hub, Gachibowli.",
    isReraApproved := Some(true), loanAvailability := Some("Up to 80%"), isAuthorityVerified := Some(false))

  const Listing7: Property := Property(
    id := 7, title := "Cozy 2 BHK in Indiranagar", kind := ForRent, price := "\U{20B9} 60,000/month",
    location := "Bangalore, Karnataka", beds := 2, baths := 2, sqft := 1100, status := ReadyToMove,
    isVerified := true, isFeatured := None,
    agent := Agent("Priya Sharma", "https://i.pravatar.cc/150?img=1"),
    imageUrls := ["https://images.unsplash.com/photo-1554995207-c18c203602cb?w=500&q=80", "https://images.unsplash.com/photo-1593696140826-c58b02198d4a?w=500&q=80"],
    coordinates := LatLng(12.9719, 77.6412),
    amenities := ["Power Backup", "Balcony", "Gym"],
    description := "A well-maintained 2 BHK in the bustling area of Indiranagar, ideal for young professionals.",
    isReraApproved := Some(true), loanAvailability := Some("Up to 70%"), isAuthorityVerified := Some(true))

  const Listing8: Property := Property(
    id := 8, title := "Grand 4 BHK Duplex in Juhu", kind := ForSale, price := "\U{20B9} 15 Cr",
    location := "Mumbai, Maharashtra", beds := 4, baths := 5, sqft := 3200, status := ReadyToMove,
    isVerified := true, isFeatured := None,
    agent := Agent("Rajesh Kumar", "https://i.pravatar.cc/150?img=2"),
    imageUrls := ["https://images.unsplash.com/photo-1613490493576-7fde63acd811?w=500&q=80", "https://images.unsplash.com/photo-1613977257365-aaae5a9817ff?w=500&q=80"],
    coordinates := LatLng(19.1075, 72.8258),
    amenities := ["Private Terrace", "Jacuzzi", "Servant Quarters", "Sea View"],
    description := "Experience ultimate luxury in this stunning duplex apartment in Juhu, with panoramic sea views.",
    isReraApproved := Some(true), loanAvailability := Some("Up to 80%"), isAuthorityVerified := Some(true))

  /** `SITE_CONTENT.hero.slides.length`. */
  const SlideCount: nat := 3

  /** `SITE_CONTENT.hero.searchSuggestions`, in key order. */
  const SearchSuggestions: seq<(string, seq<string>)> := [
    ("bangalore", ["Koramangala", "Indiranagar", "Whitefield", "HSR Layout", "Jayanagar"]),
    ("mumbai", ["Bandra", "Andheri", "Juhu", "Marine Drive", "Powai"]),
    ("delhi", ["Hauz Khas", "Connaught Place", "Saket", "Greater Kailash", "Dwarka"]),
    ("hyderabad", ["Jubilee Hills", "Gachibowli", "Banjara Hills", "HITEC City", "Kukatpally"])
  ]
}
